/**
 The write-behind queue (src/core/db_sync.py) and the order replacement that relies on it
 (src/core/order_manager.py).

 The remote database is a map from keys to full rows.  What the system believes the database
 will end up as is the replay of the queue over the database.
 */
module WriteBehind {
  import opened Prelude

  datatype Key = Key(table: string, id: string)

  type Row = map<string, string>

  type Db = map<Key, Row>

  datatype Task = Upsert(key: Key, row: Row) | Delete(key: Key)

  /** How one write ends: `Lost` took effect although an error was reported, `Rejected` is a permanent refusal. */
  datatype Response = Applied | Lost | Transient | Rejected

  function Apply(t: Task, db: Db): Db {
    match t
    case Upsert(k, row) => db[k := row]
    case Delete(k) => db - {k}
  }

  /** The task leaves the queue. */
  predicate Handled(r: Response) {
    r == Applied || r == Rejected
  }

  /** The database after the write attempt, whatever was reported. */
  function Attempt(t: Task, db: Db, response: Response): Db {
    if response == Applied || response == Lost then Apply(t, db) else db
  }

  function Replay(queue: seq<Task>, db: Db): Db {
    if queue == [] then db else Replay(queue[1..], Apply(queue[0], db))
  }

  function Lookup(db: Db, k: Key): Option<Row> {
    if k in db then Some(db[k]) else None
  }

  function Without(queue: seq<Task>, k: Key): seq<Task> {
    if queue == [] then []
    else if queue[0].key == k then Without(queue[1..], k)
    else [queue[0]] + Without(queue[1..], k)
  }

  lemma WithoutFrom(kept: seq<Task>, queue: seq<Task>, i: nat, k: Key)
    requires i < |queue|
    ensures kept + Without(queue[i..], k)
            == (if queue[i].key == k then kept else kept + [queue[i]]) + Without(queue[i + 1..], k)
  {
    assert queue[i..][0] == queue[i] && queue[i..][1..] == queue[i + 1..];
    var rest := Without(queue[i + 1..], k);
    assert kept + ([queue[i]] + rest) == kept + [queue[i]] + rest;
  }

  function Enqueued(queue: seq<Task>, t: Task): seq<Task> {
    Without(queue, t.key) + [t]
  }

  predicate Mentions(queue: seq<Task>, k: Key) {
    exists i :: 0 <= i < |queue| && queue[i].key == k
  }

  /** At most one task per key. */
  predicate Coalesced(queue: seq<Task>) {
    forall i, j :: 0 <= i < j < |queue| ==> queue[i].key != queue[j].key
  }

  /** How many tasks of `queue` leave it, and the database afterwards, when task i is answered by response(i). */
  function Drained(queue: seq<Task>, db: Db, response: nat -> Response, i: nat): (nat, Db)
    requires i <= |queue|
    decreases |queue| - i
  {
    if i == |queue| then (i, db)
    else
      var db' := Attempt(queue[i], db, response(i));
      if Handled(response(i)) then Drained(queue, db', response, i + 1) else (i, db')
  }

  /** The queue and the database it writes to. */
  class SyncQueue {
    var queue: seq<Task>
    var db: Db

    constructor (db: Db)
      ensures this.queue == [] && this.db == db
    {
      this.queue, this.db := [], db;
    }

    method EnqueueTask(t: Task)
      modifies this`queue
      ensures queue == Enqueued(old(queue), t)
    {
      var kept := [];
      for i := 0 to |queue|
        invariant queue == old(queue)
        invariant Without(queue, t.key) == kept + Without(queue[i..], t.key)
      {
        WithoutFrom(kept, queue, i, t.key);
        hide Without;
        if queue[i].key != t.key {
          kept := kept + [queue[i]];
        }
      }
      queue := kept + [t];
    }

    method ProcessQueue(connected: bool, response: nat -> Response)
      modifies this
      ensures if connected
              then (var (n, after) := Drained(old(queue), old(db), response, 0);
                    n <= |old(queue)| && queue == old(queue)[n..] && db == after)
              else queue == old(queue) && db == old(db)
    {
      if queue == [] || !connected {
        return;
      }
      var processed := 0;
      while processed < |queue|
        invariant 0 <= processed <= |queue| && queue == old(queue)
        invariant Drained(queue, old(db), response, 0) == Drained(queue, db, response, processed)
      {
        var answer := response(processed);
        db := Attempt(queue[processed], db, answer);
        if !Handled(answer) {
          break;
        }
        processed := processed + 1;
      }
      if processed > 0 {
        queue := queue[processed..];
      }
    }

    /** Replaces the row `oldKey` by `renewed`: new row first, old row second, falling back to the queue. */
    method DbReplace(renewed: Key, row: Row, oldKey: Key, upsertResponse: Response, deleteResponse: Response)
      modifies this
      ensures World(db, queue, Finished) ==
              ThreeSteps(World(old(db), old(queue), Start), upsertResponse, deleteResponse,
                         Replacement(renewed, row, oldKey))
    {
      db := Attempt(Upsert(renewed, row), db, upsertResponse);
      if upsertResponse != Applied {
        EnqueueTask(Upsert(renewed, row));
        EnqueueTask(Delete(oldKey));
      } else {
        db := Attempt(Delete(oldKey), db, deleteResponse);
        if deleteResponse != Applied {
          EnqueueTask(Delete(oldKey));
        }
      }
    }
  }

  // ---------- Coalescing preserves meaning ----------

  lemma {:induction false} ReplayWithout(queue: seq<Task>, k: Key, a: Db, b: Db)
    requires a - {k} == b - {k}
    ensures Replay(Without(queue, k), a) - {k} == Replay(queue, b) - {k}
  {
    if queue != [] {
      var b' := Apply(queue[0], b);
      if queue[0].key == k {
        assert a - {k} == b' - {k};
        ReplayWithout(queue[1..], k, a, b');
      } else {
        var a' := Apply(queue[0], a);
        SameOffKey(queue[0], k, a, b);
        ReplayWithout(queue[1..], k, a', b');
        assert Without(queue, k)[1..] == Without(queue[1..], k);
      }
    }
  }

  lemma SameOffKey(t: Task, k: Key, a: Db, b: Db)
    requires a - {k} == b - {k} && t.key != k
    ensures Apply(t, a) - {k} == Apply(t, b) - {k}
  {
    forall x
      ensures Lookup(Apply(t, a) - {k}, x) == Lookup(Apply(t, b) - {k}, x)
    {
      assert Lookup(a - {k}, x) == Lookup(b - {k}, x);
    }
    SameMaps(Apply(t, a) - {k}, Apply(t, b) - {k});
  }

  lemma SameMaps(a: Db, b: Db)
    requires forall x :: Lookup(a, x) == Lookup(b, x)
    ensures a == b
  {
    assert forall x :: x in a <==> Lookup(a, x).Some?;
    assert forall x :: x in b <==> Lookup(b, x).Some?;
    forall x | x in a ensures a[x] == b[x] {
      assert Lookup(a, x) == Lookup(b, x);
    }
  }

  lemma {:induction false} ReplayAppend(queue: seq<Task>, t: Task, db: Db)
    ensures Replay(queue + [t], db) == Apply(t, Replay(queue, db))
  {
    if queue == [] {
      assert Replay([t], db) == Replay([], Apply(t, db));
    } else {
      assert (queue + [t])[1..] == queue[1..] + [t];
      ReplayAppend(queue[1..], t, Apply(queue[0], db));
    }
  }

  /** Dropping the superseded task changes nothing: the queue means what it meant, followed by the new task. */
  lemma EnqueueIsApply(queue: seq<Task>, t: Task, db: Db)
    ensures Replay(Enqueued(queue, t), db) == Apply(t, Replay(queue, db))
  {
    ReplayAppend(Without(queue, t.key), t, db);
    ReplayWithout(queue, t.key, db, db);
    var a, b := Replay(Without(queue, t.key), db), Replay(queue, db);
    assert a - {t.key} == b - {t.key};
    forall x ensures Lookup(Apply(t, a), x) == Lookup(Apply(t, b), x) {
      if x != t.key {
        assert Lookup(a - {t.key}, x) == Lookup(b - {t.key}, x);
      }
    }
    SameMaps(Apply(t, a), Apply(t, b));
  }

  lemma {:induction false} WithoutMentions(queue: seq<Task>, k: Key, x: Key)
    ensures Mentions(Without(queue, k), x) <==> x != k && Mentions(queue, x)
  {
    if queue != [] {
      WithoutMentions(queue[1..], k, x);
      var rest := Without(queue, k);
      assert Mentions(queue, x) <==> queue[0].key == x || Mentions(queue[1..], x) by {
        MentionsSplit(queue, x);
      }
      if queue[0].key != k {
        MentionsSplit(rest, x);
        assert rest[1..] == Without(queue[1..], k);
      }
    }
  }

  lemma MentionsSplit(queue: seq<Task>, x: Key)
    requires queue != []
    ensures Mentions(queue, x) <==> queue[0].key == x || Mentions(queue[1..], x)
  {}

  lemma {:induction false} WithoutCoalesced(queue: seq<Task>, k: Key)
    requires Coalesced(queue)
    ensures Coalesced(Without(queue, k))
  {
    if queue != [] {
      WithoutCoalesced(queue[1..], k);
      WithoutMentions(queue[1..], k, queue[0].key);
      var rest := Without(queue[1..], k);
      assert !Mentions(queue[1..], queue[0].key);
      assert forall j :: 0 <= j < |rest| ==> rest[j].key != queue[0].key;
    }
  }

  lemma EnqueueCoalesces(queue: seq<Task>, t: Task)
    requires Coalesced(queue)
    ensures Coalesced(Enqueued(queue, t))
    ensures forall k :: Mentions(Enqueued(queue, t), k) <==> k == t.key || Mentions(queue, k)
  {
    WithoutCoalesced(queue, t.key);
    WithoutMentions(queue, t.key, t.key);
    var w := Without(queue, t.key);
    assert forall j :: 0 <= j < |w| ==> w[j].key != t.key;
    forall k ensures Mentions(Enqueued(queue, t), k) <==> k == t.key || Mentions(queue, k) {
      WithoutMentions(queue, t.key, k);
      assert Enqueued(queue, t)[|w|].key == t.key;
      if Mentions(w, k) {
        var i :| 0 <= i < |w| && w[i].key == k;
        assert Enqueued(queue, t)[i].key == k;
      }
    }
  }

  // ---------- Partial replay preserves meaning ----------

  lemma {:induction false} ReplayAgrees(queue: seq<Task>, k: Key, a: Db, b: Db)
    requires Lookup(a, k) == Lookup(b, k)
    ensures Lookup(Replay(queue, a), k) == Lookup(Replay(queue, b), k)
  {
    if queue != [] {
      ReplayAgrees(queue[1..], k, Apply(queue[0], a), Apply(queue[0], b));
    }
  }

  /** The queue stops at the first task that neither succeeded nor was refused for good. */
  lemma {:induction false} DrainStopsAtFirstFailure(queue: seq<Task>, db: Db, response: nat -> Response, i: nat)
    requires i <= |queue|
    ensures var n := Drained(queue, db, response, i).0;
            && i <= n <= |queue|
            && (forall j :: i <= j < n ==> Handled(response(j)))
            && (n < |queue| ==> !Handled(response(n)))
    decreases |queue| - i
  {
    if i < |queue| && Handled(response(i)) {
      DrainStopsAtFirstFailure(queue, Attempt(queue[i], db, response(i)), response, i + 1);
    }
  }

  /** A key none of whose tasks was refused for good keeps its replayed row. */
  lemma {:induction false} DrainPreservesKey(queue: seq<Task>, db: Db, response: nat -> Response, i: nat, k: Key)
    requires i <= |queue|
    requires forall j :: i <= j < |queue| && j < Drained(queue, db, response, i).0 && response(j) == Rejected ==>
               queue[j].key != k
    ensures var (n, db') := Drained(queue, db, response, i);
            n <= |queue| && Lookup(Replay(queue[n..], db'), k) == Lookup(Replay(queue[i..], db), k)
    decreases |queue| - i
  {
    DrainStopsAtFirstFailure(queue, db, response, i);
    if i < |queue| {
      var t := queue[i];
      var db' := Attempt(t, db, response(i));
      assert queue[i..][1..] == queue[i + 1..];
      if Handled(response(i)) {
        DrainPreservesKey(queue, db', response, i + 1, k);
        ReplayAgrees(queue[i + 1..], k, db', Apply(t, db));
      } else {
        ReplayAgrees(queue[i + 1..], k, Apply(t, db'), Apply(t, db));
      }
    }
  }

  /** Without permanent refusals a pass over the queue never changes what the queue and the database mean together. */
  lemma DrainPreservesReplay(queue: seq<Task>, db: Db, response: nat -> Response)
    requires forall j: nat :: j < |queue| ==> response(j) != Rejected
    ensures var (n, db') := Drained(queue, db, response, 0);
            n <= |queue| && Replay(queue[n..], db') == Replay(queue, db)
  {
    DrainStopsAtFirstFailure(queue, db, response, 0);
    var (n, db') := Drained(queue, db, response, 0);
    assert queue[0..] == queue;
    forall k ensures Lookup(Replay(queue[n..], db'), k) == Lookup(Replay(queue, db), k) {
      DrainPreservesKey(queue, db, response, 0, k);
    }
    SameMaps(Replay(queue[n..], db'), Replay(queue, db));
  }

  lemma {:induction false} ReplayUnmentioned(queue: seq<Task>, db: Db, k: Key)
    requires !Mentions(queue, k)
    ensures Lookup(Replay(queue, db), k) == Lookup(db, k)
  {
    if queue != [] {
      MentionsSplit(queue, k);
      ReplayUnmentioned(queue[1..], Apply(queue[0], db), k);
    }
  }

  lemma {:induction false} DrainUntouched(queue: seq<Task>, db: Db, response: nat -> Response, i: nat, k: Key)
    requires i <= |queue| && forall j :: i <= j < |queue| && queue[j].key == k ==> response(j) == Rejected
    ensures Lookup(Drained(queue, db, response, i).1, k) == Lookup(db, k)
    decreases |queue| - i
  {
    if i < |queue| && Handled(response(i)) {
      DrainUntouched(queue, Attempt(queue[i], db, response(i)), response, i + 1, k);
    }
  }

  /** A permanently refused task is forgotten: its key falls back to what the database held before. */
  lemma RejectedTaskIsForgotten(queue: seq<Task>, db: Db, response: nat -> Response, i: nat)
    requires Coalesced(queue) && i < Drained(queue, db, response, 0).0 <= |queue| && response(i) == Rejected
    ensures var (n, db') := Drained(queue, db, response, 0);
            Lookup(Replay(queue[n..], db'), queue[i].key) == Lookup(db, queue[i].key)
  {
    var (n, db') := Drained(queue, db, response, 0);
    DrainUntouched(queue, db, response, 0, queue[i].key);
    assert !Mentions(queue[n..], queue[i].key);
    ReplayUnmentioned(queue[n..], db', queue[i].key);
  }

  /** A task of the key was handled by being refused. */
  ghost predicate Refused(queue: seq<Task>, handled: nat, response: nat -> Response, k: Key) {
    exists i :: 0 <= i < handled && i < |queue| && queue[i].key == k && response(i) == Rejected
  }

  /** With at most one task a key, a pass keeps the replayed row of a key if and only if no task of it was refused
      or the database agreed with it already. */
  lemma DrainKeepsKeyIff(queue: seq<Task>, db: Db, response: nat -> Response, k: Key)
    requires Coalesced(queue)
    ensures var (n, db') := Drained(queue, db, response, 0);
            && n <= |queue|
            && (Lookup(Replay(queue[n..], db'), k) == Lookup(Replay(queue, db), k)
                <==> !Refused(queue, n, response, k) || Lookup(db, k) == Lookup(Replay(queue, db), k))
  {
    hide Replay, Drained, Coalesced;
    DrainStopsAtFirstFailure(queue, db, response, 0);
    assert queue[0..] == queue;
    var n := Drained(queue, db, response, 0).0;
    if Refused(queue, n, response, k) {
      var i :| 0 <= i < n && i < |queue| && queue[i].key == k && response(i) == Rejected;
      RejectedTaskIsForgotten(queue, db, response, i);
    } else {
      DrainPreservesKey(queue, db, response, 0, k);
    }
  }

  /** A direct write that goes past the queue takes effect in the replay
      exactly when the queue leaves its key alone or already sets it to the same row. */
  lemma DirectWrite(queue: seq<Task>, db: Db, t: Task)
    ensures Lookup(Replay(queue, Apply(t, db)), t.key) == Lookup(Apply(t, db), t.key)
            <==> !Mentions(queue, t.key) || Lookup(Replay(queue, db), t.key) == Lookup(Apply(t, db), t.key)
  {
    if Mentions(queue, t.key) {
      ReplayMentioned(queue, db, Apply(t, db), t.key);
    } else {
      ReplayUnmentioned(queue, Apply(t, db), t.key);
    }
  }

  lemma {:induction false} ReplayMentioned(queue: seq<Task>, a: Db, b: Db, k: Key)
    requires Mentions(queue, k)
    ensures Lookup(Replay(queue, a), k) == Lookup(Replay(queue, b), k)
  {
    MentionsSplit(queue, k);
    if queue[0].key == k {
      ReplayAgrees(queue[1..], k, Apply(queue[0], a), Apply(queue[0], b));
    } else {
      ReplayMentioned(queue[1..], Apply(queue[0], a), Apply(queue[0], b), k);
    }
  }

  // ---------- Replacing an order row, interleaved with everything else ----------

  datatype Replacement = Replacement(renewed: Key, row: Row, stale: Key)

  /** Where the replacement coroutine stands between two of its awaits. */
  datatype Stage = Start | UpsertFailed | UpsertQueued | NewWritten | DeleteFailed | Finished

  datatype World = World(db: Db, queue: seq<Task>, stage: Stage)

  datatype Action =
    | Advance(response: Response)                 // the coroutine takes its next step
    | Sync(responses: nat -> Response)            // a pass over the queue
    | OtherEnqueue(task: Task)                    // somebody queues a write
    | OtherWrite(task: Task)                      // somebody writes directly

  function Step(w: World, a: Action, r: Replacement): World {
    match a
    case Advance(response) =>
      (match w.stage
       case Start =>
         w.(db := Attempt(Upsert(r.renewed, r.row), w.db, response),
            stage := if response == Applied then NewWritten else UpsertFailed)
       case UpsertFailed => w.(queue := Enqueued(w.queue, Upsert(r.renewed, r.row)), stage := UpsertQueued)
       case UpsertQueued => w.(queue := Enqueued(w.queue, Delete(r.stale)), stage := Finished)
       case NewWritten =>
         w.(db := Attempt(Delete(r.stale), w.db, response),
            stage := if response == Applied then Finished else DeleteFailed)
       case DeleteFailed => w.(queue := Enqueued(w.queue, Delete(r.stale)), stage := Finished)
       case Finished => w)
    case Sync(responses) =>
      var (n, db') := Drained(w.queue, w.db, responses, 0);
      if n <= |w.queue| then w.(db := db', queue := w.queue[n..]) else w
    case OtherEnqueue(t) => w.(queue := Enqueued(w.queue, t))
    case OtherWrite(t) => w.(db := Apply(t, w.db))
  }

  /** The coroutine's own steps, uninterrupted; the last two share a response, of which at most one is used. */
  function ThreeSteps(w: World, first: Response, second: Response, r: Replacement): World {
    Step(Step(Step(w, Advance(first), r), Advance(second), r), Advance(second), r)
  }

  function Run(w: World, actions: seq<Action>, r: Replacement): World
    decreases |actions|
  {
    if actions == [] then w else Run(Step(w, actions[0], r), actions[1..], r)
  }

  /** The other writers keep off the two keys, and no queued task for them is refused for good. */
  ghost predicate Fair(w: World, a: Action, r: Replacement) {
    match a
    case Advance(_) => true
    case Sync(responses) => SparesBoth(w.queue, responses, r)
    case OtherEnqueue(t) => t.key != r.renewed && t.key != r.stale
    case OtherWrite(t) => t.key != r.renewed && t.key != r.stale
  }

  ghost predicate SparesBoth(queue: seq<Task>, responses: nat -> Response, r: Replacement) {
    forall j :: 0 <= j < |queue| && responses(j) == Rejected ==> queue[j].key != r.renewed && queue[j].key != r.stale
  }

  ghost predicate FairRun(w: World, actions: seq<Action>, r: Replacement)
    decreases |actions|
  {
    actions == [] || (Fair(w, actions[0], r) && FairRun(Step(w, actions[0], r), actions[1..], r))
  }

  /** While the queue is replayed task by task, one of the two rows is always in the database. */
  ghost predicate AlwaysOne(queue: seq<Task>, db: Db, r: Replacement) {
    && (r.stale in db || r.renewed in db)
    && (queue != [] ==> AlwaysOne(queue[1..], Apply(queue[0], db), r))
  }

  ghost predicate Invariant(w: World, r: Replacement) {
    && r.renewed != r.stale
    && Coalesced(w.queue)
    && AlwaysOne(w.queue, w.db, r)
    && (w.stage in {Start, UpsertFailed, NewWritten} ==> r.stale in w.db && !Mentions(w.queue, r.renewed))
    && (w.stage in {Start, UpsertFailed, NewWritten, UpsertQueued} ==> r.stale in w.db)
    && (w.stage in {Start, UpsertFailed, NewWritten, UpsertQueued, DeleteFailed} ==> !Mentions(w.queue, r.stale))
    && (w.stage in {UpsertQueued, NewWritten, DeleteFailed, Finished} ==>
          Lookup(Replay(w.queue, w.db), r.renewed) == Some(r.row))
    && (w.stage == Finished ==> Lookup(Replay(w.queue, w.db), r.stale) == None)
  }

  ghost predicate SameRows(a: Db, b: Db, r: Replacement) {
    Lookup(a, r.renewed) == Lookup(b, r.renewed) && Lookup(a, r.stale) == Lookup(b, r.stale)
  }

  /** Tasks for other keys do not matter to AlwaysOne. */
  lemma {:induction false} AlwaysOneOthers(queue: seq<Task>, t: Task, a: Db, b: Db, r: Replacement)
    requires t.key != r.renewed && t.key != r.stale && SameRows(a, b, r) && AlwaysOne(queue, b, r)
    ensures AlwaysOne(Without(queue, t.key) + [t], a, r)
  {
    if queue == [] {
      assert AlwaysOne([], Apply(t, a), r);
    } else {
      var q := Without(queue, t.key) + [t];
      var b' := Apply(queue[0], b);
      if queue[0].key == t.key {
        AlwaysOneOthers(queue[1..], t, a, b', r);
      } else {
        AlwaysOneOthers(queue[1..], t, Apply(queue[0], a), b', r);
        assert q[1..] == Without(queue[1..], t.key) + [t];
      }
    }
  }

  lemma {:induction false} AlwaysOneSame(queue: seq<Task>, a: Db, b: Db, r: Replacement)
    requires SameRows(a, b, r) && AlwaysOne(queue, b, r)
    ensures AlwaysOne(queue, a, r)
  {
    if queue != [] {
      AlwaysOneSame(queue[1..], Apply(queue[0], a), Apply(queue[0], b), r);
    }
  }

  /** While the stale row is there and nothing queued touches it, anything may be appended that leaves one row. */
  lemma {:induction false} AlwaysOneAppend(queue: seq<Task>, t: Task, db: Db, r: Replacement)
    requires !Mentions(queue, r.stale) && r.stale in db
    requires r.stale in Apply(t, Replay(queue, db)) || r.renewed in Apply(t, Replay(queue, db))
    ensures AlwaysOne(queue + [t], db, r)
  {
    if queue == [] {
      assert (queue + [t])[1..] == [];
      assert AlwaysOne([], Apply(t, db), r);
    } else {
      MentionsSplit(queue, r.stale);
      assert (queue + [t])[1..] == queue[1..] + [t];
      AlwaysOneAppend(queue[1..], t, Apply(queue[0], db), r);
    }
  }

  lemma {:induction false} AlwaysOneDrained(queue: seq<Task>, db: Db, responses: nat -> Response, i: nat,
                                            r: Replacement)
    requires i <= |queue| && AlwaysOne(queue[i..], db, r) && SparesBoth(queue, responses, r)
    ensures var (n, db') := Drained(queue, db, responses, i); n <= |queue| && AlwaysOne(queue[n..], db', r)
    decreases |queue| - i
  {
    if i < |queue| {
      assert queue[i..][1..] == queue[i + 1..];
      var db' := Attempt(queue[i], db, responses(i));
      if responses(i) == Applied {
        AlwaysOneDrained(queue, db', responses, i + 1, r);
      } else if responses(i) == Rejected {
        AlwaysOneSame(queue[i + 1..], db', Apply(queue[i], db), r);
        AlwaysOneDrained(queue, db', responses, i + 1, r);
      } else if responses(i) == Lost {
        AlwaysOneSame(queue[i + 1..], Apply(queue[i], db'), db', r);
      }
    }
  }

  /** A pass over the queue keeps what it leaves unmentioned, and the replayed rows of the two keys. */
  lemma SyncKeepsBoth(w: World, responses: nat -> Response, r: Replacement)
    requires SparesBoth(w.queue, responses, r)
    ensures var w' := Step(w, Sync(responses), r);
            && SameRows(Replay(w'.queue, w'.db), Replay(w.queue, w.db), r)
            && (forall k :: !Mentions(w.queue, k) ==> !Mentions(w'.queue, k) && Lookup(w'.db, k) == Lookup(w.db, k))
            && (Coalesced(w.queue) ==> Coalesced(w'.queue))
  {
    var (n, db') := Drained(w.queue, w.db, responses, 0);
    DrainStopsAtFirstFailure(w.queue, w.db, responses, 0);
    assert w.queue[0..] == w.queue;
    DrainPreservesKey(w.queue, w.db, responses, 0, r.renewed);
    DrainPreservesKey(w.queue, w.db, responses, 0, r.stale);
    forall k | !Mentions(w.queue, k) ensures !Mentions(w.queue[n..], k) && Lookup(db', k) == Lookup(w.db, k) {
      DrainUntouched(w.queue, w.db, responses, 0, k);
    }
  }

  lemma SyncStep(w: World, responses: nat -> Response, r: Replacement)
    requires Invariant(w, r) && SparesBoth(w.queue, responses, r)
    ensures Invariant(Step(w, Sync(responses), r), r)
  {
    SyncKeepsBoth(w, responses, r);
    assert w.queue[0..] == w.queue;
    AlwaysOneDrained(w.queue, w.db, responses, 0, r);
    hide Drained, Replay, Mentions, Coalesced, SparesBoth;
  }

  lemma AdvanceStep(w: World, response: Response, r: Replacement)
    requires Invariant(w, r)
    ensures Invariant(Step(w, Advance(response), r), r)
  {
    var w' := Step(w, Advance(response), r);
    match w.stage
    case Start =>
      ReplayUnmentioned(w.queue, w'.db, r.renewed);
      StaleStays(w.queue, w'.db, r);
    case UpsertFailed =>
      var t := Upsert(r.renewed, r.row);
      EnqueueCoalesces(w.queue, t);
      EnqueueIsApply(w.queue, t, w.db);
      WithoutMentions(w.queue, r.renewed, r.stale);
      AlwaysOneAppend(Without(w.queue, r.renewed), t, w.db, r) by {
        ReplayAppend(Without(w.queue, r.renewed), t, w.db);
      }
    case UpsertQueued =>
      FinishByQueue(w, r);
    case NewWritten =>
      assert Lookup(w.db, r.renewed) == Some(r.row) by { ReplayUnmentioned(w.queue, w.db, r.renewed); }
      ReplayUnmentioned(w.queue, w'.db, r.renewed);
      ReplayUnmentioned(w.queue, w'.db, r.stale);
      FreshStays(w.queue, w'.db, r);
    case DeleteFailed =>
      FinishByQueue(w, r);
    case Finished =>
  }

  lemma {:induction false} StaleStays(queue: seq<Task>, db: Db, r: Replacement)
    requires !Mentions(queue, r.stale) && r.stale in db
    ensures AlwaysOne(queue, db, r)
  {
    if queue != [] {
      MentionsSplit(queue, r.stale);
      StaleStays(queue[1..], Apply(queue[0], db), r);
    }
  }

  lemma {:induction false} FreshStays(queue: seq<Task>, db: Db, r: Replacement)
    requires !Mentions(queue, r.renewed) && r.renewed in db
    ensures AlwaysOne(queue, db, r)
  {
    if queue != [] {
      MentionsSplit(queue, r.renewed);
      FreshStays(queue[1..], Apply(queue[0], db), r);
    }
  }

  lemma {:induction false} AlwaysOneThenDelete(queue: seq<Task>, db: Db, r: Replacement)
    requires r.renewed != r.stale && AlwaysOne(queue, db, r) && r.renewed in Replay(queue, db)
    ensures AlwaysOne(queue + [Delete(r.stale)], db, r)
  {
    var q := queue + [Delete(r.stale)];
    if queue == [] {
      assert q[1..] == [];
      assert AlwaysOne([], Apply(Delete(r.stale), db), r);
    } else {
      assert q[1..] == queue[1..] + [Delete(r.stale)];
      AlwaysOneThenDelete(queue[1..], Apply(queue[0], db), r);
    }
  }

  lemma {:induction false} WithoutUnmentioned(queue: seq<Task>, k: Key)
    requires !Mentions(queue, k)
    ensures Without(queue, k) == queue
  {
    if queue != [] {
      MentionsSplit(queue, k);
      WithoutUnmentioned(queue[1..], k);
    }
  }

  lemma FinishByQueue(w: World, r: Replacement)
    requires Invariant(w, r) && w.stage in {UpsertQueued, DeleteFailed}
    ensures Invariant(World(w.db, Enqueued(w.queue, Delete(r.stale)), Finished), r)
  {
    var t := Delete(r.stale);
    EnqueueCoalesces(w.queue, t);
    EnqueueIsApply(w.queue, t, w.db);
    WithoutUnmentioned(w.queue, r.stale);
    assert r.renewed in Replay(w.queue, w.db) by { assert Lookup(Replay(w.queue, w.db), r.renewed).Some?; }
    AlwaysOneThenDelete(w.queue, w.db, r);
  }

  lemma OthersStep(w: World, a: Action, r: Replacement)
    requires Invariant(w, r) && (a.OtherEnqueue? || a.OtherWrite?) && Fair(w, a, r)
    ensures Invariant(Step(w, a, r), r)
  {
    match a
    case OtherEnqueue(t) =>
      EnqueueCoalesces(w.queue, t);
      EnqueueIsApply(w.queue, t, w.db);
      AlwaysOneOthers(w.queue, t, w.db, w.db, r);
    case OtherWrite(t) =>
      ReplayAgrees(w.queue, r.renewed, Apply(t, w.db), w.db);
      ReplayAgrees(w.queue, r.stale, Apply(t, w.db), w.db);
      AlwaysOneSame(w.queue, Apply(t, w.db), w.db, r);
  }

  lemma {:induction false} RunKeepsInvariant(w: World, actions: seq<Action>, r: Replacement)
    requires Invariant(w, r) && FairRun(w, actions, r)
    ensures Invariant(Run(w, actions, r), r)
    decreases |actions|
  {
    if actions != [] {
      hide Invariant, Step;
      match actions[0] {
        case Advance(response) => AdvanceStep(w, response, r);
        case Sync(responses) => SyncStep(w, responses, r);
        case OtherEnqueue(_) => OthersStep(w, actions[0], r);
        case OtherWrite(_) => OthersStep(w, actions[0], r);
      }
      RunKeepsInvariant(Step(w, actions[0], r), actions[1..], r);
    }
  }

  /** A replacement of a row by itself is on its way to deleting the row. */
  ghost predicate Doomed(w: World, k: Key) {
    && (w.stage in {Start, UpsertFailed, NewWritten, DeleteFailed} ==> !Mentions(w.queue, k))
    && (w.stage == Finished ==> Lookup(Replay(w.queue, w.db), k) == None)
  }

  lemma DoomedStep(w: World, a: Action, r: Replacement)
    requires r.renewed == r.stale && Doomed(w, r.stale) && Fair(w, a, r)
    ensures Doomed(Step(w, a, r), r.stale)
  {
    match a
    case Advance(response) =>
      if w.stage in {UpsertQueued, DeleteFailed} {
        EnqueueIsApply(w.queue, Delete(r.stale), w.db);
      } else if w.stage == NewWritten {
        ReplayUnmentioned(w.queue, Step(w, a, r).db, r.stale);
      }
    case Sync(responses) =>
      SyncKeepsBoth(w, responses, r);
      hide Drained;
    case OtherEnqueue(t) =>
      EnqueueIsApply(w.queue, t, w.db);
      WithoutMentions(w.queue, t.key, r.stale);
    case OtherWrite(t) =>
      ReplayAgrees(w.queue, r.stale, Apply(t, w.db), w.db);
  }

  lemma {:induction false} RunStaysDoomed(w: World, actions: seq<Action>, r: Replacement)
    requires r.renewed == r.stale && Doomed(w, r.stale) && FairRun(w, actions, r)
    ensures Doomed(Run(w, actions, r), r.stale)
    decreases |actions|
  {
    if actions != [] {
      DoomedStep(w, actions[0], r);
      RunStaysDoomed(Step(w, actions[0], r), actions[1..], r);
    }
  }

  /** From a start with no task queued for either key, in every interleaving: the database never lacks both
      rows of two different keys; and once the replacement has finished, the old row is gone from the replay, and
      the new one is there if and only if it has another key than the old. */
  lemma ReplaceNeverLosesTheOrder(w: World, actions: seq<Action>, r: Replacement)
    requires w.stage == Start && r.stale in w.db && Coalesced(w.queue)
    requires !Mentions(w.queue, r.renewed) && !Mentions(w.queue, r.stale)
    requires FairRun(w, actions, r)
    ensures var end := Run(w, actions, r);
            && (r.renewed != r.stale ==> r.stale in end.db || r.renewed in end.db)
            && (end.stage == Finished ==>
                  && Lookup(Replay(end.queue, end.db), r.stale) == None
                  && (Lookup(Replay(end.queue, end.db), r.renewed) == Some(r.row) <==> r.renewed != r.stale))
  {
    if r.renewed == r.stale {
      RunStaysDoomed(w, actions, r);
    } else {
      StaleStays(w.queue, w.db, r);
      RunKeepsInvariant(w, actions, r);
    }
  }

  /** The failing input: replacing a row by itself with every write accepted leaves it neither in the database
      nor in the queue. */
  lemma SelfReplacementDeletesTheRow(w: World, k: Key, row: Row)
    requires w.stage == Start && !Mentions(w.queue, k)
    ensures var end := ThreeSteps(w, Applied, Applied, Replacement(k, row, k));
            end.stage == Finished && k !in end.db && Lookup(Replay(end.queue, end.db), k) == None
  {
    ReplayUnmentioned(w.queue, (w.db[k := row]) - {k}, k);
  }

  /** A queued new row that is refused for good takes the old row with it: the queued deletion still runs. */
  lemma RefusedUpsertLosesTheOrder(db: Db, r: Replacement, answers: nat -> Response)
    requires r.renewed != r.stale && r.renewed !in db
    requires answers(0) == Rejected && answers(1) == Applied
    ensures var queued := ThreeSteps(World(db, [], Start), Transient, Transient, r);
            var end := Step(queued, Sync(answers), r);
            && queued.queue == [Upsert(r.renewed, r.row), Delete(r.stale)]
            && end.queue == [] && r.renewed !in end.db && r.stale !in end.db
  {
    var up, del := Upsert(r.renewed, r.row), Delete(r.stale);
    var q := [up, del];
    assert Enqueued([], up) == [up];
    assert [up][1..] == [];
    assert Without([up], r.stale) == [up] && [up] + [del] == q;
    assert Enqueued([up], del) == q;
    assert ThreeSteps(World(db, [], Start), Transient, Transient, r) == World(db, q, Finished);
    assert Drained(q, Apply(del, db), answers, 2) == (2, Apply(del, db));
    assert Drained(q, db, answers, 1) == (2, Apply(del, db));
    assert Drained(q, db, answers, 0) == (2, Apply(del, db));
  }

  /** The replacement takes at most three steps of its own. */
  lemma ReplaceFinishes(w: World, first: Response, second: Response, r: Replacement)
    requires w.stage == Start
    ensures ThreeSteps(w, first, second, r).stage == Finished
  {}
}
