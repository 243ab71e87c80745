/**
 A whole synchronisation cycle and the recovery at startup (src/core/order_sync.py) as runs of single steps,
 so that what every run keeps holds for them.
 */
module SyncCycle {
  import opened Prelude
  import opened Orders
  import opened Lifecycle
  import opened Sync

  /** What the outside world has to say about one order. */
  datatype Moment = Moment(ex: Exchange, env: Env, answer: Option<Report>)

  type World = Uuid -> Moment

  function Uuids(rows: seq<OrderRow>): (us: seq<Uuid>)
    ensures |us| == |rows|
  {
    seq(|rows|, i requires 0 <= i < |rows| => rows[i].uuid)
  }

  function VisitOf(u: Uuid, w: World): Event {
    Visited(u, w(u).ex, w(u).env)
  }

  function PollOf(u: Uuid, w: World): Event {
    Polled(u, w(u).ex, w(u).answer, w(u).env)
  }

  function Visits(us: seq<Uuid>, w: World): seq<Event> {
    if us == [] then [] else [VisitOf(us[0], w)] + Visits(us[1..], w)
  }

  function Polls(us: seq<Uuid>, w: World): seq<Event> {
    if us == [] then [] else [PollOf(us[0], w)] + Polls(us[1..], w)
  }

  /** The orders the first pass leaves to be queried. */
  function Unsettled(st: State, us: seq<Uuid>, w: World): seq<Uuid>
    decreases |us|
  {
    if us == [] then []
    else
      var ord := Find(st.rows, us[0]);
      (if ord.Some? && !Settles(ord.value, w(us[0]).ex, w(us[0]).env) then [us[0]] else [])
      + Unsettled(Step(st, VisitOf(us[0], w)), us[1..], w)
  }

  /** The steps of a cycle that starts in st: the first pass visits a snapshot of all orders, the second the
      unsettled. */
  function CycleSteps(st: State, first: World, second: World): seq<Event> {
    var us := Uuids(st.rows);
    [CachesCleaned] + (Visits(us, first) + Polls(Unsettled(Step(st, CachesCleaned), us, first), second))
  }

  /** The purchases at RSI targets that have a take-profit target. */
  function LinkedBuys(rows: seq<OrderRow>): seq<Uuid> {
    if rows == [] then []
    else LinkedBuys(rows[..|rows| - 1]) + if IsLinkedBuy(rows[|rows| - 1]) then [rows[|rows| - 1].uuid] else []
  }

  /** Recovery looks at exactly the tracked purchases of the RSI strategy that are to be sold at a target. */
  lemma {:induction false} LinkedBuysAre(rows: seq<OrderRow>, u: Uuid)
    ensures u in LinkedBuys(rows) <==>
            exists r :: r in rows && r.uuid == u && r.side == Bid && r.strategy == RsiTrade
                        && r.linkedTo.Some? && r.linkedTo.value != 0.0
  {
    if rows != [] {
      LinkedBuysAre(rows[..|rows| - 1], u);
      assert rows == rows[..|rows| - 1] + [rows[|rows| - 1]];
    }
  }

  function Recoveries(targets: seq<Uuid>, w: World): seq<Event> {
    if targets == [] then []
    else
      var u := targets[0];
      (if w(u).answer.Some? then [Recovered(u, w(u).ex, w(u).answer.value, w(u).env)] else [])
        + Recoveries(targets[1..], w)
  }

  ghost predicate Knows(st: State, used: set<Uuid>) {
    Distinct(st.rows) && forall x :: Find(st.rows, x).Some? ==> x in used
  }

  /** One step of a run with fresh ids leaves a run with fresh ids. */
  lemma StepKnows(st: State, used: set<Uuid>, e: Event)
    requires Knows(st, used) && Incoming(st, e) !! used
    ensures forall x :: x in Incoming(st, e) ==> Find(st.rows, x).None?
    ensures Knows(Step(st, e), used + Incoming(st, e))
  {
    StepShape(st, e);
    hide Step, Incoming, Distinct;
  }

  method SnapshotUuids(engine: SyncEngine) returns (us: seq<Uuid>)
    requires engine.Valid()
    ensures us == Uuids(engine.View().rows)
  {
    us := [];
    for i := 0 to |engine.om.orders|
      invariant us == Uuids(engine.om.Rows()[..i])
    {
      us := us + [engine.om.cells[engine.om.orders[i]].uuid];
    }
  }

  /** Takes the first visit off what is still to come. */
  lemma VisitFirst(st: State, us: seq<Uuid>, i: nat, w: World, used: set<Uuid>, later: seq<Event>)
    requires i < |us| && Knows(st, used) && FreshIds(st, used, Visits(us[i..], w) + later)
    ensures var e := VisitOf(us[i], w); var after := Step(st, e); var ord := Find(st.rows, us[i]);
            && (forall x :: x in Incoming(st, e) ==> Find(st.rows, x).None?)
            && Knows(after, used + Incoming(st, e))
            && FreshIds(after, used + Incoming(st, e), Visits(us[i + 1..], w) + later)
            && Run(st, Visits(us[i..], w)) == Run(after, Visits(us[i + 1..], w))
            && Unsettled(st, us[i..], w) ==
               (if ord.Some? && !Settles(ord.value, w(us[i]).ex, w(us[i]).env) then [us[i]] else [])
               + Unsettled(after, us[i + 1..], w)
  {
    hide Step, Incoming, Knows, Settles;
    assert us[i..][1..] == us[i + 1..];
    var e := VisitOf(us[i], w);
    assert Visits(us[i..], w) == [e] + Visits(us[i + 1..], w);
    assert (Visits(us[i..], w) + later)[1..] == Visits(us[i + 1..], w) + later;
    assert Visits(us[i..], w)[1..] == Visits(us[i + 1..], w);
    StepKnows(st, used, e);
  }

  lemma NothingLeft(st: State, w: World, later: seq<Event>)
    ensures Visits([], w) + later == later && Unsettled(st, [], w) == [] && Polls([], w) == [] && Run(st, []) == st
  {}

  /** First pass: settles what it can and collects the rest. */
  method VisitAll(engine: SyncEngine, us: seq<Uuid>, first: World, ghost used: set<Uuid>, ghost later: seq<Event>)
    returns (toQuery: seq<Uuid>, ghost known: set<Uuid>)
    requires engine.Valid() && Knows(engine.View(), used) && FreshIds(engine.View(), used, Visits(us, first) + later)
    modifies engine, engine.om
    ensures engine.Valid() && Knows(engine.View(), known)
    ensures engine.View() == Run(old(engine.View()), Visits(us, first))
    ensures toQuery == Unsettled(old(engine.View()), us, first)
    ensures FreshIds(engine.View(), known, later)
  {
    hide SyncEngine.Valid, SyncEngine.View, OrderManager.Valid, Step, Incoming, Knows, Settles, FreshIds, Run,
         Unsettled, Visits, VisitOf, Find;
    toQuery, known := [], used;
    assert us[0..] == us;
    for i := 0 to |us|
      invariant engine.Valid() && Knows(engine.View(), known)
      invariant FreshIds(engine.View(), known, Visits(us[i..], first) + later)
      invariant Run(old(engine.View()), Visits(us, first)) == Run(engine.View(), Visits(us[i..], first))
      invariant Unsettled(old(engine.View()), us, first) == toQuery + Unsettled(engine.View(), us[i..], first)
    {
      VisitFirst(engine.View(), us, i, first, known, later);
      known := known + Incoming(engine.View(), VisitOf(us[i], first));
      var settled := VisitOne(engine, us[i], first);
      if !settled {
        toQuery := toQuery + [us[i]];
      }
    }
    assert us[|us|..] == [];
    NothingLeft(engine.View(), first, later);
  }

  method VisitOne(engine: SyncEngine, u: Uuid, first: World) returns (settled: bool)
    requires engine.Valid()
    requires forall x :: x in Incoming(engine.View(), VisitOf(u, first)) ==> Find(engine.View().rows, x).None?
    modifies engine, engine.om
    ensures engine.Valid()
    ensures engine.View() == Step(old(engine.View()), VisitOf(u, first))
    ensures var ord := Find(old(engine.View()).rows, u);
            settled <==> !(ord.Some? && !Settles(ord.value, first(u).ex, first(u).env))
  {
    hide OrderManager.Valid, Visit, Settles;
    FindTracked(engine.om.Rows(), u);
    var current := engine.om.GetOrderByUuid(u);
    FindTracked(engine.om.Rows(), u);
    if current.None? {
      return true;
    }
    assert engine.View() == old(engine.View());
    var ord := engine.om.cells[current.value];
    assert Visited(ord.uuid, first(u).ex, first(u).env) == VisitOf(u, first);
    hide Incoming, Step;
    settled := engine.VisitOrder(ord, first(u).ex, first(u).env);
  }

  method PollOne(engine: SyncEngine, u: Uuid, second: World)
    requires engine.Valid()
    requires forall x :: x in Incoming(engine.View(), PollOf(u, second)) ==> Find(engine.View().rows, x).None?
    modifies engine, engine.om
    ensures engine.Valid()
    ensures engine.View() == Step(old(engine.View()), PollOf(u, second))
  {
    hide OrderManager.Valid, Poll;
    FindTracked(engine.om.Rows(), u);
    var current := engine.om.GetOrderByUuid(u);
    FindTracked(engine.om.Rows(), u);
    if current.Some? {
      assert engine.View() == old(engine.View());
      var ord := engine.om.cells[current.value];
      assert second(u).env.issued.Some? ==> second(u).env.issued.value in Incoming(engine.View(), PollOf(u, second));
      engine.PollOrder(ord, second(u).ex, second(u).answer, second(u).env);
    }
  }

  lemma PollFirst(st: State, us: seq<Uuid>, i: nat, w: World, used: set<Uuid>)
    requires i < |us| && Knows(st, used) && FreshIds(st, used, Polls(us[i..], w))
    ensures var e := PollOf(us[i], w); var after := Step(st, e);
            && (forall x :: x in Incoming(st, e) ==> Find(st.rows, x).None?)
            && Knows(after, used + Incoming(st, e))
            && FreshIds(after, used + Incoming(st, e), Polls(us[i + 1..], w))
            && Run(st, Polls(us[i..], w)) == Run(after, Polls(us[i + 1..], w))
  {
    hide Step, Incoming, Knows;
    assert us[i..][1..] == us[i + 1..];
    var e := PollOf(us[i], w);
    assert Polls(us[i..], w) == [e] + Polls(us[i + 1..], w);
    assert Polls(us[i..], w)[1..] == Polls(us[i + 1..], w);
    StepKnows(st, used, e);
  }

  method PollAll(engine: SyncEngine, us: seq<Uuid>, second: World, ghost used: set<Uuid>)
    requires engine.Valid() && Knows(engine.View(), used) && FreshIds(engine.View(), used, Polls(us, second))
    modifies engine, engine.om
    ensures engine.Valid()
    ensures engine.View() == Run(old(engine.View()), Polls(us, second))
  {
    hide SyncEngine.Valid, SyncEngine.View, OrderManager.Valid, Step, Incoming, Knows, FreshIds, Run, Polls, PollOf,
         Find;
    ghost var known := used;
    assert us[0..] == us;
    for i := 0 to |us|
      invariant engine.Valid() && Knows(engine.View(), known)
      invariant FreshIds(engine.View(), known, Polls(us[i..], second))
      invariant Run(old(engine.View()), Polls(us, second)) == Run(engine.View(), Polls(us[i..], second))
    {
      PollFirst(engine.View(), us, i, second, known);
      known := known + Incoming(engine.View(), PollOf(us[i], second));
      PollOne(engine, us[i], second);
    }
    assert us[|us|..] == [];
    NothingLeft(engine.View(), second, []);
  }

  lemma {:induction false} RunConcat(st: State, a: seq<Event>, b: seq<Event>)
    ensures Run(st, a + b) == Run(Run(st, a), b)
    decreases |a|
  {
    if a == [] {
      assert a + b == b;
    } else {
      assert (a + b)[1..] == a[1..] + b;
      RunConcat(Step(st, a[0]), a[1..], b);
      hide Step;
    }
  }

  /** The caches are cleaned first; the rest of the cycle is a run of visits and then of polls. */
  lemma CycleParts(st: State, first: World, second: World, used: set<Uuid>)
    requires Knows(st, used) && FreshIds(st, used, CycleSteps(st, first, second))
    ensures var clean := Step(st, CachesCleaned); var us := Uuids(st.rows);
            var later := Polls(Unsettled(clean, us, first), second);
            && Knows(clean, used) && FreshIds(clean, used, Visits(us, first) + later)
            && Run(st, CycleSteps(st, first, second)) == Run(Run(clean, Visits(us, first)), later)
  {
    hide Step, Knows, Visits, Unsettled, Polls, Uuids;
    var clean, us := Step(st, CachesCleaned), Uuids(st.rows);
    var later := Polls(Unsettled(clean, us, first), second);
    var steps := CycleSteps(st, first, second);
    assert steps[0] == CachesCleaned && steps[1..] == Visits(us, first) + later;
    assert Incoming(st, CachesCleaned) == {} && used + {} == used;
    StepKnows(st, used, CachesCleaned);
    RunConcat(clean, Visits(us, first), later);
  }

  /** A cycle is a run of its steps. */
  method SyncOrders(engine: SyncEngine, first: World, second: World, ghost used: set<Uuid>)
    requires engine.Valid() && Knows(engine.View(), used)
    requires FreshIds(engine.View(), used, CycleSteps(engine.View(), first, second))
    modifies engine, engine.om
    ensures engine.Valid()
    ensures engine.View() == Run(old(engine.View()), CycleSteps(old(engine.View()), first, second))
  {
    hide SyncEngine.Valid, SyncEngine.View, OrderManager.Valid, Step, Incoming, Knows, Visits, Unsettled, Polls,
         CycleSteps, Run, FreshIds, Uuids;
    ghost var start := engine.View();
    CycleParts(start, first, second, used);
    var us := SnapshotUuids(engine);
    ghost var later := Polls(Unsettled(Step(start, CachesCleaned), us, first), second);
    engine.CleanupStaleCaches();
    var toQuery, known := VisitAll(engine, us, first, used, later);
    PollAll(engine, toQuery, second, known);
  }

  method LinkedBuyUuids(engine: SyncEngine) returns (targets: seq<Uuid>)
    requires engine.Valid()
    ensures targets == LinkedBuys(engine.View().rows)
  {
    ghost var rows := engine.om.Rows();
    targets := [];
    for i := 0 to |engine.om.orders|
      invariant targets == LinkedBuys(rows[..i])
    {
      assert rows[..i + 1][..i] == rows[..i];
      var o := engine.om.cells[engine.om.orders[i]];
      if IsLinkedBuy(o) {
        targets := targets + [o.uuid];
      }
    }
    assert rows[..|rows|] == rows;
  }

  method RecoverOne(engine: SyncEngine, u: Uuid, m: Moment)
    requires engine.Valid() && m.answer.Some?
    modifies engine, engine.om
    ensures engine.Valid()
    ensures engine.View() == Step(old(engine.View()), Recovered(u, m.ex, m.answer.value, m.env))
  {
    hide OrderManager.Valid, Recover;
    FindTracked(engine.om.Rows(), u);
    var current := engine.om.GetOrderByUuid(u);
    FindTracked(engine.om.Rows(), u);
    if current.Some? {
      engine.RecoverOrder(engine.om.cells[current.value], m.ex, m.answer.value, m.env);
    }
  }

  lemma RecoverFirst(st: State, us: seq<Uuid>, i: nat, w: World)
    requires i < |us|
    ensures Run(st, Recoveries(us[i..], w)) ==
            (if w(us[i]).answer.Some?
             then Run(Step(st, Recovered(us[i], w(us[i]).ex, w(us[i]).answer.value, w(us[i]).env)),
                      Recoveries(us[i + 1..], w))
             else Run(st, Recoveries(us[i + 1..], w)))
  {
    hide Step;
    assert us[i..][1..] == us[i + 1..];
    var rest := Recoveries(us[i + 1..], w);
    if w(us[i]).answer.Some? {
      var e := Recovered(us[i], w(us[i]).ex, w(us[i]).answer.value, w(us[i]).env);
      assert ([e] + rest)[1..] == rest;
    } else {
      assert [] + rest == rest;
    }
  }

  /** Recovery after a crash is a run of recovery steps, one for each purchase whose status could be read. */
  method StartupRecovery(engine: SyncEngine, w: World)
    requires engine.Valid()
    modifies engine, engine.om
    ensures engine.Valid()
    ensures engine.View() == Run(old(engine.View()), Recoveries(LinkedBuys(old(engine.View()).rows), w))
  {
    hide SyncEngine.Valid, SyncEngine.View, OrderManager.Valid, Step, Run, Recoveries, LinkedBuys, Find;
    ghost var start := engine.View();
    var targets := LinkedBuyUuids(engine);
    assert targets[0..] == targets;
    for i := 0 to |targets|
      invariant engine.Valid()
      invariant Run(start, Recoveries(targets, w)) == Run(engine.View(), Recoveries(targets[i..], w))
    {
      RecoverFirst(engine.View(), targets, i, w);
      if w(targets[i]).answer.Some? {
        RecoverOne(engine, targets[i], w(targets[i]));
      }
    }
    assert targets[|targets|..] == [];
    NothingToRecover(engine.View(), w);
  }

  lemma NothingToRecover(st: State, w: World)
    ensures Run(st, Recoveries([], w)) == st
  {}
}
