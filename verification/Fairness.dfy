/** Fairness of the delivery queue: the batch limit cannot starve a due delivery. */
module Fairness {
  import opened Sums
  import opened Ledger
  import opened Store
  import opened Outbound
  import opened Retry

  /** A round that is listed, not cancelled, and whose updates persist. */
  predicate FullRound(tick: Tick) {
    tick.listUp && |tick.answers| >= BATCH && Persists(tick)
  }

  // Attempts that a pending delivery can still use up.
  function Remaining(d: Delivery): nat {
    if d.status == Pending && d.attempts < MAX_ATTEMPTS then MAX_ATTEMPTS - d.attempts else 0
  }

  /** The attempts that the rows older than row i, among the first n, can still use up. */
  function Ahead(rows: seq<Delivery>, i: nat, n: nat): nat
    requires i < |rows| && n <= |rows|
  {
    if n == 0 then 0
    else Ahead(rows, i, n - 1) + (if Older(rows, n - 1, i) then Remaining(rows[n - 1]) else 0)
  }

  /** How many of them are pending. */
  function OlderPending(rows: seq<Delivery>, i: nat, n: nat): nat
    requires i < |rows| && n <= |rows|
  {
    if n == 0 then 0
    else OlderPending(rows, i, n - 1) + (if Older(rows, n - 1, i) && rows[n - 1].status == Pending then 1 else 0)
  }

  function CreatedBefore(time: int): Delivery -> int {
    (d: Delivery) => if d.createdAt < time then 1 else 0
  }

  /** New deliveries that carry an earlier creation time: their handlers read the clock first and committed later. */
  function LateIn(time: int): Tick -> int {
    (tick: Tick) => Sum(tick.arrivals, CreatedBefore(time))
  }

  lemma {:induction false} AheadAtMost(rows: seq<Delivery>, i: nat, n: nat)
    requires i < |rows| && n <= |rows|
    ensures Ahead(rows, i, n) <= 5 * OlderPending(rows, i, n)
  {
    if n > 0 {
      AheadAtMost(rows, i, n - 1);
    }
  }

  lemma {:induction false} AheadUpdate(rows: seq<Delivery>, i: nat, n: nat, j: nat, d: Delivery)
    requires i < |rows| && n <= |rows| && j < |rows| && d.createdAt == rows[j].createdAt
    ensures Ahead(rows[j := d], i, n) ==
      Ahead(rows, i, n) + (if j < n && Older(rows, j, i) then Remaining(d) - Remaining(rows[j]) else 0)
  {
    if n > 0 {
      AheadUpdate(rows, i, n - 1, j, d);
      assert Older(rows[j := d], n - 1, i) <==> Older(rows, n - 1, i);
    }
  }

  lemma {:induction false} AheadPrefix(rows: seq<Delivery>, more: seq<Delivery>, i: nat, n: nat)
    requires i < |rows| && n <= |rows|
    ensures Ahead(rows + more, i, n) == Ahead(rows, i, n)
  {
    if n > 0 {
      AheadPrefix(rows, more, i, n - 1);
      assert Older(rows + more, n - 1, i) <==> Older(rows, n - 1, i);
    }
  }

  // Each late arrival puts at most five attempts in front of row i.
  lemma {:induction false} AheadArrives(rows: seq<Delivery>, more: seq<Delivery>, i: nat, n: nat)
    requires i < |rows| && n <= |more|
    ensures Ahead(rows + more, i, |rows| + n) <=
      Ahead(rows, i, |rows|) + 5 * Sum(more[..n], CreatedBefore(rows[i].createdAt))
  {
    if n == 0 {
      AheadPrefix(rows, more, i, |rows|);
    } else {
      AheadArrives(rows, more, i, n - 1);
      assert more[..n] == more[..n - 1] + [more[n - 1]];
      SumAppend(more[..n - 1], more[n - 1], CreatedBefore(rows[i].createdAt));
    }
  }

  lemma OneUsesUp(q: Queue, j: nat, a: Answer, i: nat)
    requires j < |q.rows| == |q.history| && i < |q.rows| && Older(q.rows, j, i) && a.persists
    requires q.rows[j].status == Pending && q.rows[j].attempts < MAX_ATTEMPTS
    ensures Ahead(DeliverOne(q, j, a).rows, i, |q.rows|) <= Ahead(q.rows, i, |q.rows|) - 1
  {
    AheadUpdate(q.rows, i, |q.rows|, j, Attempted(q.rows[j], a.ok, q.clock + a.took));
  }

  lemma {:induction false} CreationStays(q: Queue, batch: seq<nat>, answers: seq<Answer>, i: nat)
    requires |q.rows| == |q.history| && |batch| <= |answers| && i < |q.rows|
    requires forall k :: 0 <= k < |batch| ==> batch[k] < |q.rows|
    ensures DeliverAll(q, batch, answers).rows[i].createdAt == q.rows[i].createdAt
  {
    if batch != [] {
      CreationStays(q, batch[..|batch| - 1], answers, i);
    }
  }

  /** Every attempt on an older row uses up one of the attempts ahead of row i. */
  lemma {:induction false} AttemptsUseUp(q: Queue, batch: seq<nat>, answers: seq<Answer>, i: nat)
    requires QueueOk(q) && |batch| <= |answers| && Distinct(batch) && i < |q.rows|
    requires forall k :: 0 <= k < |batch| ==>
      batch[k] < |q.rows| && Older(q.rows, batch[k], i) && q.rows[batch[k]].status == Pending
    requires forall a <- answers :: a.persists
    ensures Ahead(DeliverAll(q, batch, answers).rows, i, |q.rows|) <= Ahead(q.rows, i, |q.rows|) - |batch|
  {
    if batch != [] {
      var last := |batch| - 1;
      var front, j := batch[..last], batch[last];
      AttemptsUseUp(q, front, answers, i);
      DeliverAllFrame(q, front, answers, j);
      CreationStays(q, front, answers, i);
      assert j !in front && RowOk(q.rows[j], Kept(q.history[j]));
      OneUsesUp(DeliverAll(q, front, answers), j, answers[last], i);
    }
  }

  /** A due row that a full round misses has fifty older due rows in front of it, all attempted. */
  lemma MissedBatch(rows: seq<Delivery>, now: int, i: nat)
    requires i < |rows| && Due(rows[i], now) && i !in Batch(rows, now)
    ensures var batch := Batch(rows, now);
      |batch| == BATCH && forall k :: 0 <= k < BATCH ==> batch[k] < |rows| && Older(rows, batch[k], i)
  {
    DueRowsListed(rows, now);
    var due, batch := DueRows(rows, now), Batch(rows, now);
    var m :| 0 <= m < |due| && due[m] == i;
    assert forall k :: 0 <= k < |batch| ==> batch[k] == due[k] && batch[k] != i;
    assert |batch| <= m;
  }

  // Either row i has been attempted, or it is untouched and 50 attempts ahead of it are gone per round.
  ghost predicate Progress(q: Queue, q': Queue, i: nat, rounds: nat, late: int)
    requires i < |q.rows| <= |q'.rows|
  {
    || q'.rows[i].attempts > q.rows[i].attempts
    || (q'.rows[i] == q.rows[i] && q'.clock >= q.clock &&
        Ahead(q'.rows, i, |q'.rows|) <= Ahead(q.rows, i, |q.rows|) + 5 * late - BATCH * rounds)
  }

  lemma FullDispatch(q: Queue, answers: seq<Answer>)
    requires |q.rows| == |q.history| && |answers| >= BATCH
    ensures Dispatched(q, true, answers) == DeliverAll(q, Batch(q.rows, q.clock), answers)
    ensures Distinct(Batch(q.rows, q.clock))
  {
    var batch := Batch(q.rows, q.clock);
    BatchListed(q.rows, q.clock);
    assert batch[..|batch|] == batch;
  }

  lemma FullBatchAttempts(q: Queue, answers: seq<Answer>, i: nat)
    requires |q.rows| == |q.history| && i < |q.rows| && i in Batch(q.rows, q.clock)
    requires |answers| >= BATCH && forall a <- answers :: a.persists
    ensures Dispatched(q, true, answers).rows[i].attempts == q.rows[i].attempts + 1
  {
    var batch := Batch(q.rows, q.clock);
    FullDispatch(q, answers);
    var k :| 0 <= k < |batch| && batch[k] == i;
    AttemptedOnce(q, batch, answers, k);
  }

  lemma RoundAttempts(q: Queue, tick: Tick, i: nat)
    requires |q.rows| == |q.history| && FullRound(tick) && i < |q.rows|
    requires i in Batch(q.rows + tick.arrivals, q.clock + tick.wait)
    ensures AfterTick(q, tick).rows[i].attempts == q.rows[i].attempts + 1
  {
    FullBatchAttempts(Arrived(q, tick), tick.answers, i);
  }

  lemma {:induction false} AttemptedOnce(q: Queue, batch: seq<nat>, answers: seq<Answer>, k: nat)
    requires |q.rows| == |q.history| && |batch| <= |answers| && Distinct(batch) && k < |batch|
    requires forall m :: 0 <= m < |batch| ==> batch[m] < |q.rows|
    requires forall a <- answers :: a.persists
    ensures DeliverAll(q, batch, answers).rows[batch[k]].attempts == q.rows[batch[k]].attempts + 1
  {
    var last := |batch| - 1;
    var front := batch[..last];
    if k < last {
      AttemptedOnce(q, front, answers, k);
    } else {
      DeliverAllFrame(q, front, answers, batch[last]);
    }
  }

  // A full round that misses row i uses up fifty of the attempts ahead of it.
  lemma FullBatchUsesUp(q: Queue, answers: seq<Answer>, i: nat)
    requires QueueOk(q) && i < |q.rows| && Due(q.rows[i], q.clock) && i !in Batch(q.rows, q.clock)
    requires |answers| >= BATCH && forall a <- answers :: a.persists
    ensures Ahead(Dispatched(q, true, answers).rows, i, |q.rows|) <= Ahead(q.rows, i, |q.rows|) - BATCH
  {
    MissedBatch(q.rows, q.clock, i);
    FullDispatch(q, answers);
    AttemptsUseUp(q, Batch(q.rows, q.clock), answers, i);
  }

  lemma LateArrivals(q: Queue, tick: Tick, i: nat)
    requires |q.rows| == |q.history| && i < |q.rows|
    ensures var q' := Arrived(q, tick);
      Ahead(q'.rows, i, |q'.rows|) <= Ahead(q.rows, i, |q.rows|) + 5 * LateIn(q.rows[i].createdAt)(tick)
  {
    AheadArrives(q.rows, tick.arrivals, i, |tick.arrivals|);
    assert tick.arrivals[..|tick.arrivals|] == tick.arrivals;
  }

  lemma RoundMisses(q: Queue, tick: Tick, i: nat)
    requires QueueOk(q) && FullRound(tick) && i < |q.rows| && Due(q.rows[i], q.clock)
    requires i !in Batch(q.rows + tick.arrivals, q.clock + tick.wait)
    ensures var q' := AfterTick(q, tick);
      Ahead(q'.rows, i, |q'.rows|) <= Ahead(q.rows, i, |q.rows|) + 5 * LateIn(q.rows[i].createdAt)(tick) - BATCH
  {
    ArrivedOk(q, tick);
    LateArrivals(q, tick, i);
    FullBatchUsesUp(Arrived(q, tick), tick.answers, i);
  }

  lemma {:induction false} RoundsProgress(q: Queue, ticks: seq<Tick>, i: nat)
    requires QueueOk(q) && i < |q.rows| && Due(q.rows[i], q.clock)
    requires forall tick <- ticks :: FullRound(tick)
    ensures QueueOk(AfterTicks(q, ticks))
    ensures Progress(q, AfterTicks(q, ticks), i, |ticks|, Sum(ticks, LateIn(q.rows[i].createdAt)))
  {
    if ticks != [] {
      var front, tick := ticks[..|ticks| - 1], ticks[|ticks| - 1];
      RoundsProgress(q, front, i);
      var mid := AfterTicks(q, front);
      assert tick in ticks && FullRound(tick);
      TickOk(mid, tick);
      if i in Batch(mid.rows + tick.arrivals, mid.clock + tick.wait) {
        RoundAttempts(mid, tick, i);
      } else {
        TickFrame(mid, tick, i);
        if mid.rows[i].attempts <= q.rows[i].attempts {
          RoundMisses(mid, tick, i);
        }
      }
    }
  }

  /** A due delivery with p older pending ones is attempted within floor((p + late) / 10) + 1 full rounds, where `late`
      counts the deliveries committed in the meantime with an earlier creation time. */
  lemma AttemptedWithin(q: Queue, ticks: seq<Tick>, i: nat)
    requires QueueOk(q) && i < |q.rows| && Due(q.rows[i], q.clock)
    requires forall tick <- ticks :: FullRound(tick)
    requires var p, late := OlderPending(q.rows, i, |q.rows|), Sum(ticks, LateIn(q.rows[i].createdAt));
      |ticks| > (p + late) / 10
    ensures AfterTicks(q, ticks).rows[i].attempts > q.rows[i].attempts
  {
    RoundsProgress(q, ticks, i);
    AheadAtMost(q.rows, i, |q.rows|);
  }
}
