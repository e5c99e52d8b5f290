/** The outbound delivery worker: a batch of due deliveries per round, one attempt each, exponential back-off. */
module Outbound {
  import opened Ledger
  import opened Store

  const MAX_ATTEMPTS := 5
  const INITIAL_BACKOFF := 30
  const BATCH := 50

  function Pow2(n: nat): nat { if n == 0 then 1 else 2 * Pow2(n - 1) }

  // How one post turns out, how long it takes, and whether the row update succeeds.
  datatype Answer = Answer(ok: bool, took: nat, persists: bool)

  // One post: when it started and ended, how it turned out, and whether the row update after it persisted.
  datatype Post = Post(at: int, ended: int, ok: bool, kept: bool)

  // The deliveries in the order of their commits, the clock in seconds, and for every delivery the posts made for it
  // so far.
  datatype Queue = Queue(rows: seq<Delivery>, clock: int, history: seq<seq<Post>>)

  predicate Due(d: Delivery, now: int) {
    d.status == Pending && (d.nextRetryAt.None? || d.nextRetryAt.value <= now)
  }

  /** Row i is listed before row j: created earlier, or at the same time and committed earlier. */
  predicate Older(rows: seq<Delivery>, i: nat, j: nat)
    requires i < |rows| && j < |rows|
  {
    rows[i].createdAt < rows[j].createdAt || (rows[i].createdAt == rows[j].createdAt && i < j)
  }

  /** ORDER BY created_at ASC for one row more: it goes behind all rows that were not created later. */
  function Placed(rows: seq<Delivery>, due: seq<nat>, i: nat): (placed: seq<nat>)
    requires i < |rows| && forall k :: 0 <= k < |due| ==> due[k] < |rows|
    ensures |placed| == |due| + 1 && forall x :: x in placed <==> x in due || x == i
  {
    var last := |due| - 1;
    if due == [] || rows[due[last]].createdAt <= rows[i].createdAt then due + [i]
    else
      assert due == due[..last] + [due[last]];
      Placed(rows, due[..last], i) + [due[last]]
  }

  /** The positions of the due rows, oldest first. */
  function DueRows(rows: seq<Delivery>, now: int): (due: seq<nat>)
    ensures forall k :: 0 <= k < |due| ==> due[k] < |rows| && Due(rows[due[k]], now)
  {
    if rows == [] then []
    else
      var last := |rows| - 1;
      var due := DueRows(rows[..last], now);
      if Due(rows[last], now) then
        var placed := Placed(rows, due, last);
        assert forall k :: 0 <= k < |placed| ==> placed[k] in placed;
        placed
      else due
  }

  function Batch(rows: seq<Delivery>, now: int): (batch: seq<nat>)
    ensures forall k :: 0 <= k < |batch| ==> batch[k] < |rows| && Due(rows[batch[k]], now)
  {
    var due := DueRows(rows, now);
    if |due| <= BATCH then due else due[..BATCH]
  }

  /** The record after one attempt whose post ended at time `now`. */
  function Attempted(d: Delivery, ok: bool, now: int): Delivery {
    var n := d.attempts + 1;
    if ok then d.(attempts := n, status := Delivered, nextRetryAt := None)
    else if n >= MAX_ATTEMPTS then d.(attempts := n, status := Failed, nextRetryAt := None)
    else d.(attempts := n, nextRetryAt := Some(now + INITIAL_BACKOFF * Pow2(n - 1)))
  }

  /** An attempt touches the attempts, the status and the next due time: delivered after a success, failed after the
      fifth failure, and due again 30, 60, 120 or 240 seconds after the others. */
  lemma AttemptMeans(d: Delivery, ok: bool, now: int)
    ensures var d' := Attempted(d, ok, now);
      && d' == d.(attempts := d.attempts + 1, status := d'.status, nextRetryAt := d'.nextRetryAt)
      && (ok ==> d'.status == Delivered && d'.nextRetryAt == None)
      && (!ok && d.attempts >= 4 ==> d'.status == Failed && d'.nextRetryAt == None)
      && (!ok && d.attempts < 4 ==>
           d'.status == d.status && d'.nextRetryAt == Some(now + [30, 60, 120, 240][d.attempts]))
  {
    assert Pow2(0) == 1 && Pow2(1) == 2 && Pow2(2) == 4 && Pow2(3) == 8;
  }

  function DeliverOne(q: Queue, i: nat, a: Answer): Queue
    requires i < |q.rows| == |q.history|
  {
    var now := q.clock + a.took;
    Queue(if a.persists then q.rows[i := Attempted(q.rows[i], a.ok, now)] else q.rows,
          now, q.history[i := q.history[i] + [Post(q.clock, now, a.ok, a.persists)]])
  }

  function DeliverAll(q: Queue, batch: seq<nat>, answers: seq<Answer>): (q': Queue)
    requires |q.rows| == |q.history| && |batch| <= |answers|
    requires forall k :: 0 <= k < |batch| ==> batch[k] < |q.rows|
    ensures |q'.rows| == |q'.history| == |q.rows|
  {
    if batch == [] then q
    else
      var last := |batch| - 1;
      DeliverOne(DeliverAll(q, batch[..last], answers), batch[last], answers[last])
  }

  function Least(x: nat, y: nat): nat { if x < y then x else y }

  /** One dispatch; it stops early when the context is cancelled, after as many posts as there are answers. */
  function Dispatched(q: Queue, listUp: bool, answers: seq<Answer>): (q': Queue)
    requires |q.rows| == |q.history|
    ensures |q'.rows| == |q'.history| == |q.rows|
  {
    var batch := Batch(q.rows, q.clock);
    if !listUp then q else DeliverAll(q, batch[..Least(|batch|, |answers|)], answers)
  }

  ghost predicate DistinctIds(rows: seq<Delivery>) {
    forall i, j :: 0 <= i < |rows| && 0 <= j < |rows| && rows[i].id == rows[j].id ==> i == j
  }

  // The in-memory record scanned from a row.
  class DeliveryRecord {
    const id: nat
    var status: DeliveryStatus
    var attempts: nat
    var nextRetryAt: Option<int>

    constructor (row: Delivery)
      ensures id == row.id && status == row.status && attempts == row.attempts && nextRetryAt == row.nextRetryAt
    {
      id, status, attempts, nextRetryAt := row.id, row.status, row.attempts, row.nextRetryAt;
    }

    ghost predicate Holds(d: Delivery)
      reads this
    {
      id == d.id && status == d.status && attempts == d.attempts && nextRetryAt == d.nextRetryAt
    }
  }

  class OutboundWorker {
    const db: Database
    ghost var posts: seq<seq<Post>>

    constructor (db: Database)
      ensures this.db == db && posts == seq(|db.committed.deliveries|, _ => [])
    {
      this.db := db;
      posts := seq(|db.committed.deliveries|, _ => []);
    }

    // Deliveries enqueued since the last round have no posts yet.
    ghost function QueueAt(clock: int): Queue
      requires |posts| <= |db.committed.deliveries|
      reads this, db
    {
      Queue(db.committed.deliveries, clock, posts + seq(|db.committed.deliveries| - |posts|, _ => []))
    }

    method Dispatch(now: int, listUp: bool, answers: seq<Answer>) returns (clock: int)
      requires |posts| <= |db.committed.deliveries| && DistinctIds(db.committed.deliveries)
      modifies this, db
      ensures |posts| <= |db.committed.deliveries|
      ensures QueueAt(clock) == Dispatched(old(QueueAt(now)), listUp, answers)
      ensures db.committed == old(db.committed).(deliveries := db.committed.deliveries)
    {
      clock := now;
      if !listUp {
        return;
      }
      ghost var start := QueueAt(now);
      posts := start.history;
      var rows := db.committed.deliveries;
      var batch := Batch(rows, now);
      var n := Least(|batch|, |answers|);
      for k := 0 to n
        invariant |posts| == |db.committed.deliveries|
        invariant QueueAt(clock) == DeliverAll(start, batch[..k], answers)
        invariant db.committed == old(db.committed).(deliveries := db.committed.deliveries)
      {
        BatchFrame(start, batch, answers, k);
        var d := new DeliveryRecord(rows[batch[k]]);
        clock := Deliver(d, batch[k], answers[k], clock);
        assert batch[..k + 1][..k] == batch[..k];
      }
    }

    /** One attempt; `i` is where the record's row stands. */
    method Deliver(d: DeliveryRecord, ghost i: nat, a: Answer, now: int) returns (clock: int)
      requires i < |db.committed.deliveries| == |posts| && DistinctIds(db.committed.deliveries)
      requires d.Holds(db.committed.deliveries[i])
      modifies this, db, d
      ensures |posts| == |db.committed.deliveries|
      ensures QueueAt(clock) == DeliverOne(old(QueueAt(now)), i, a)
      ensures db.committed == old(db.committed).(deliveries := db.committed.deliveries)
    {
      d.attempts := d.attempts + 1;
      clock := now + a.took;
      posts := posts[i := posts[i] + [Post(now, clock, a.ok, a.persists)]];
      if a.ok {
        d.status := Delivered;
        d.nextRetryAt := None;
      } else {
        ScheduleRetry(d, clock);
      }
      UpdateDelivery(d, i, a.persists);
    }

    static method ScheduleRetry(d: DeliveryRecord, now: int)
      requires d.attempts >= 1
      modifies d
      ensures d.attempts == old(d.attempts)
      ensures d.attempts >= 5 ==> d.status == Failed && d.nextRetryAt == None
      ensures d.attempts < 5 ==> d.status == old(d.status) && d.nextRetryAt == Some(now + 30 * Pow2(d.attempts - 1))
    {
      if d.attempts >= MAX_ATTEMPTS {
        d.status := Failed;
        d.nextRetryAt := None;
        return;
      }
      d.nextRetryAt := Some(now + INITIAL_BACKOFF * Pow2(d.attempts - 1));
    }

    method UpdateDelivery(d: DeliveryRecord, ghost i: nat, up: bool)
      requires i < |db.committed.deliveries| && DistinctIds(db.committed.deliveries)
      requires db.committed.deliveries[i].id == d.id
      modifies db
      ensures db.committed == old(db.committed).(deliveries := db.committed.deliveries)
      ensures db.committed.deliveries ==
        if up then old(db.committed.deliveries)[i :=
          old(db.committed.deliveries)[i].(status := d.status, attempts := d.attempts, nextRetryAt := d.nextRetryAt)]
        else old(db.committed.deliveries)
    {
      if up {
        var rows := db.committed.deliveries;
        var id, status, attempts, next := d.id, d.status, d.attempts, d.nextRetryAt;
        var updated := seq(|rows|, k requires 0 <= k < |rows| =>
          if rows[k].id == id then rows[k].(status := status, attempts := attempts, nextRetryAt := next) else rows[k]);
        db.committed := db.committed.(deliveries := updated);
      }
    }
  }

  ghost predicate OldestFirst(rows: seq<Delivery>, due: seq<nat>) {
    && (forall k :: 0 <= k < |due| ==> due[k] < |rows|)
    && forall k, m :: 0 <= k < m < |due| ==> Older(rows, due[k], due[m])
  }

  lemma {:induction false} PlacedInOrder(rows: seq<Delivery>, due: seq<nat>, i: nat)
    requires OldestFirst(rows, due) && i < |rows| && forall k :: 0 <= k < |due| ==> due[k] < i
    ensures OldestFirst(rows, Placed(rows, due, i))
  {
    var last := |due| - 1;
    if due != [] && rows[due[last]].createdAt > rows[i].createdAt {
      PlacedInOrder(rows, due[..last], i);
      var front := Placed(rows, due[..last], i);
      forall k | 0 <= k < |front| ensures Older(rows, front[k], due[last]) {
        assert front[k] in front;
      }
    }
  }

  /** The list is in created_at order, without repeats, and holds exactly the due rows. */
  lemma {:induction false} DueRowsListed(rows: seq<Delivery>, now: int)
    ensures var due := DueRows(rows, now);
      && OldestFirst(rows, due)
      && (forall i :: 0 <= i < |rows| ==> (i in due <==> Due(rows[i], now)))
      && (forall i :: 0 <= i < |rows| ==>
           var d := rows[i];
           i in due <==> d.status == Pending && (d.nextRetryAt == None || d.nextRetryAt.value <= now))
  {
    if rows != [] {
      var last := |rows| - 1;
      DueRowsListed(rows[..last], now);
      var front := DueRows(rows[..last], now);
      forall k, m | 0 <= k < m < |front| ensures Older(rows, front[k], front[m]) {
        assert Older(rows[..last], front[k], front[m]);
      }
      PlacedInOrder(rows, front, last);
      forall i | 0 <= i < |rows| ensures i in DueRows(rows, now) <==> Due(rows[i], now) {
        if i < last {
          assert rows[..last][i] == rows[i];
        }
      }
    }
  }

  lemma {:induction false} DeliverAllFrame(q: Queue, batch: seq<nat>, answers: seq<Answer>, i: nat)
    requires |q.rows| == |q.history| && |batch| <= |answers| && i < |q.rows|
    requires forall k :: 0 <= k < |batch| ==> batch[k] < |q.rows|
    ensures var q' := DeliverAll(q, batch, answers);
      && q'.rows[i].id == q.rows[i].id
      && (i !in batch ==> q'.rows[i] == q.rows[i] && q'.history[i] == q.history[i])
  {
    if batch != [] {
      var last := |batch| - 1;
      DeliverAllFrame(q, batch[..last], answers, i);
      assert batch[last] in batch;
    }
  }

  // Before its turn comes, a row of the batch is as it was when it was listed.
  lemma BatchFrame(q: Queue, batch: seq<nat>, answers: seq<Answer>, k: nat)
    requires |q.rows| == |q.history| && batch == Batch(q.rows, q.clock) && k < |batch| && k < |answers|
    requires DistinctIds(q.rows)
    ensures var q' := DeliverAll(q, batch[..k], answers);
      q'.rows[batch[k]] == q.rows[batch[k]] && DistinctIds(q'.rows)
  {
    BatchListed(q.rows, q.clock);
    var q' := DeliverAll(q, batch[..k], answers);
    DeliverAllFrame(q, batch[..k], answers, batch[k]);
    forall i | 0 <= i < |q.rows| ensures q'.rows[i].id == q.rows[i].id {
      DeliverAllFrame(q, batch[..k], answers, i);
    }
  }

  /** A round takes the first fifty due rows, or all when there are no more. */
  lemma FirstFifty(rows: seq<Delivery>, now: int)
    ensures var due, batch := DueRows(rows, now), Batch(rows, now);
      |batch| <= 50 && batch <= due && (|batch| < 50 ==> batch == due)
  {
  }

  /** A round posts once for each of the first rows of its batch, as many as it gets to before it is cancelled; a row
      whose update persists is the attempted one, and every other row stays. */
  lemma DispatchMeans(q: Queue, answers: seq<Answer>, i: nat)
    requires |q.rows| == |q.history| && i < |q.rows|
    ensures var q', batch := Dispatched(q, true, answers), Batch(q.rows, q.clock);
      var n := Least(|batch|, |answers|);
      && Dispatched(q, false, answers) == q
      && (i !in batch[..n] ==> q'.rows[i] == q.rows[i] && q'.history[i] == q.history[i])
      && forall k :: 0 <= k < n && batch[k] == i ==>
           && |q'.history[i]| == |q.history[i]| + 1 && q'.history[i][..|q.history[i]|] == q.history[i]
           && var post := q'.history[i][|q.history[i]|];
              && post.ok == answers[k].ok && post.kept == answers[k].persists
              && q'.rows[i] == if post.kept then Attempted(q.rows[i], post.ok, post.ended) else q.rows[i]
  {
    var batch := Batch(q.rows, q.clock);
    var n := Least(|batch|, |answers|);
    BatchListed(q.rows, q.clock);
    DeliverAllFrame(q, batch[..n], answers, i);
    forall k | 0 <= k < n && batch[k] == i ensures PostedOnce(q, DeliverAll(q, batch[..n], answers), i, answers[k]) {
      DeliveredOnce(q, batch[..n], answers, k);
    }
  }

  // Row i has had one more post than before, with that answer.
  ghost predicate PostedOnce(q: Queue, q': Queue, i: nat, a: Answer)
    requires |q.rows| == |q.history| == |q'.rows| == |q'.history| && i < |q.rows|
  {
    && |q'.history[i]| == |q.history[i]| + 1 && q'.history[i][..|q.history[i]|] == q.history[i]
    && var post := q'.history[i][|q.history[i]|];
       && post.ok == a.ok && post.kept == a.persists
       && q'.rows[i] == if post.kept then Attempted(q.rows[i], post.ok, post.ended) else q.rows[i]
  }

  lemma {:induction false} DeliveredOnce(q: Queue, batch: seq<nat>, answers: seq<Answer>, k: nat)
    requires |q.rows| == |q.history| && |batch| <= |answers| && Distinct(batch) && k < |batch|
    requires forall m :: 0 <= m < |batch| ==> batch[m] < |q.rows|
    ensures PostedOnce(q, DeliverAll(q, batch, answers), batch[k], answers[k])
  {
    var last := |batch| - 1;
    if k < last {
      DeliveredOnce(q, batch[..last], answers, k);
    } else {
      DeliverAllFrame(q, batch[..last], answers, batch[last]);
    }
  }

  lemma BatchListed(rows: seq<Delivery>, now: int)
    ensures OldestFirst(rows, Batch(rows, now)) && Distinct(Batch(rows, now))
  {
    DueRowsListed(rows, now);
  }
}
