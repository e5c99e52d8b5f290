/** The delivery queue over whole runs: the retry state machine and its time bounds. */
module Retry {
  import opened Sums
  import opened Ledger
  import opened Store
  import opened Outbound

  // Time passes, new deliveries are committed, then the worker dispatches once.
  datatype Tick = Tick(wait: nat, arrivals: seq<Delivery>, listUp: bool, answers: seq<Answer>)

  predicate Fresh(d: Delivery) {
    d.status == Pending && d.attempts == 0 && d.nextRetryAt == None
  }

  function Arrived(q: Queue, tick: Tick): (q': Queue)
    requires |q.rows| == |q.history|
    ensures |q'.rows| == |q'.history| == |q.rows| + |tick.arrivals|
  {
    Queue(q.rows + tick.arrivals, q.clock + tick.wait, q.history + seq(|tick.arrivals|, _ => []))
  }

  function AfterTick(q: Queue, tick: Tick): (q': Queue)
    requires |q.rows| == |q.history|
    ensures |q'.rows| == |q'.history| == |q.rows| + |tick.arrivals|
  {
    Dispatched(Arrived(q, tick), tick.listUp, tick.answers)
  }

  function AfterTicks(q: Queue, ticks: seq<Tick>): (q': Queue)
    requires |q.rows| == |q.history|
    ensures |q'.rows| == |q'.history| >= |q.rows|
  {
    if ticks == [] then q else AfterTick(AfterTicks(q, ticks[..|ticks| - 1]), ticks[|ticks| - 1])
  }

  const NO_QUEUE := Queue([], 0, [])

  predicate NewAreFresh(tick: Tick) {
    forall d <- tick.arrivals :: Fresh(d)
  }

  predicate Persists(tick: Tick) {
    NewAreFresh(tick) && forall a <- tick.answers :: a.persists
  }

  /** The posts whose row update persisted. */
  function Kept(h: seq<Post>): seq<Post> {
    if h == [] then []
    else
      var kept := Kept(h[..|h| - 1]);
      if h[|h| - 1].kept then kept + [h[|h| - 1]] else kept
  }

  /** How many row updates were lost. */
  function Lost(): seq<Post> -> int { (h: seq<Post>) => |h| - |Kept(h)| }

  // ----- the retry state machine -----

  /** Attempt n (counting from 0) comes at least 30 * 2^(n-1) seconds after the end of the one before. */
  ghost predicate Spaced(h: seq<Post>) {
    && (forall n :: 0 <= n < |h| ==> h[n].at <= h[n].ended)
    && forall n :: 0 < n < |h| ==> h[n].at >= h[n - 1].ended + 30 * Pow2(n - 1)
  }

  /** A row is determined by its posts: only the last one can have succeeded; the status says how they ended. */
  ghost predicate RowOk(d: Delivery, h: seq<Post>) {
    && d.attempts == |h| <= 5
    && (forall n :: 0 <= n < |h| - 1 ==> !h[n].ok)
    && (d.status == Delivered <==> |h| > 0 && h[|h| - 1].ok)
    && (d.status == Failed <==> |h| == 5 && !h[|h| - 1].ok)
    && (d.status == Pending && |h| > 0 ==> d.nextRetryAt == Some(h[|h| - 1].ended + 30 * Pow2(|h| - 1)))
    && Spaced(h)
  }

  /** Every row is determined by those of its posts whose update persisted; the others left it as it was. */
  ghost predicate QueueOk(q: Queue) {
    |q.rows| == |q.history| && forall i :: 0 <= i < |q.rows| ==> RowOk(q.rows[i], Kept(q.history[i]))
  }

  lemma KeptAppend(h: seq<Post>, p: Post)
    ensures Kept(h + [p]) == if p.kept then Kept(h) + [p] else Kept(h)
  {
    assert (h + [p])[..|h|] == h;
  }

  lemma AttemptOk(d: Delivery, h: seq<Post>, now: int, a: Answer)
    requires RowOk(d, h) && Due(d, now)
    ensures RowOk(Attempted(d, a.ok, now + a.took), h + [Post(now, now + a.took, a.ok, true)])
  {
    var h' := h + [Post(now, now + a.took, a.ok, true)];
    forall n | 0 < n < |h'|
      ensures h'[n].at >= h'[n - 1].ended + 30 * Pow2(n - 1)
    {
      if n < |h| {
        assert h[n].at >= h[n - 1].ended + 30 * Pow2(n - 1);
      }
    }
  }

  lemma DeliveredRowOk(q: Queue, i: nat, a: Answer)
    requires i < |q.rows| == |q.history| && RowOk(q.rows[i], Kept(q.history[i])) && Due(q.rows[i], q.clock)
    ensures var q' := DeliverOne(q, i, a); RowOk(q'.rows[i], Kept(q'.history[i]))
  {
    KeptAppend(q.history[i], Post(q.clock, q.clock + a.took, a.ok, a.persists));
    AttemptOk(q.rows[i], Kept(q.history[i]), q.clock, a);
  }

  lemma DeliverOneOk(q: Queue, i: nat, a: Answer)
    requires QueueOk(q) && i < |q.rows| && Due(q.rows[i], q.clock)
    ensures QueueOk(DeliverOne(q, i, a)) && DeliverOne(q, i, a).clock >= q.clock
  {
    var q' := DeliverOne(q, i, a);
    DeliveredRowOk(q, i, a);
    forall k | 0 <= k < |q'.rows| && k != i ensures RowOk(q'.rows[k], Kept(q'.history[k])) {
      assert q'.rows[k] == q.rows[k] && q'.history[k] == q.history[k];
    }
  }

  lemma {:induction false} DeliverAllOk(q: Queue, batch: seq<nat>, answers: seq<Answer>)
    requires QueueOk(q) && |batch| <= |answers| && Distinct(batch)
    requires forall k :: 0 <= k < |batch| ==> batch[k] < |q.rows| && Due(q.rows[batch[k]], q.clock)
    ensures QueueOk(DeliverAll(q, batch, answers)) && DeliverAll(q, batch, answers).clock >= q.clock
  {
    if batch != [] {
      var last := |batch| - 1;
      var front := batch[..last];
      DeliverAllOk(q, front, answers);
      DeliverAllFrame(q, front, answers, batch[last]);
      assert batch[last] !in front;
      DeliverOneOk(DeliverAll(q, front, answers), batch[last], answers[last]);
    }
  }

  lemma ArrivedOk(q: Queue, tick: Tick)
    requires QueueOk(q) && NewAreFresh(tick)
    ensures QueueOk(Arrived(q, tick))
  {
    var q' := Arrived(q, tick);
    forall i | 0 <= i < |q'.rows| ensures RowOk(q'.rows[i], Kept(q'.history[i])) {
      if i >= |q.rows| {
        assert q'.rows[i] in tick.arrivals;
      }
    }
  }

  lemma TickOk(q: Queue, tick: Tick)
    requires QueueOk(q) && NewAreFresh(tick)
    ensures QueueOk(AfterTick(q, tick)) && AfterTick(q, tick).clock >= q.clock
  {
    var q' := Arrived(q, tick);
    ArrivedOk(q, tick);
    var batch := Batch(q'.rows, q'.clock);
    BatchListed(q'.rows, q'.clock);
    DeliverAllOk(q', batch[..Least(|batch|, |tick.answers|)], tick.answers);
  }

  /** In every run, with cancelled rounds, failed listings and lost updates, every delivery obeys the state machine on
      its persisted posts: pending means at most four, failed exactly five without success. */
  lemma {:induction false} RetryInvariant(ticks: seq<Tick>)
    requires forall tick <- ticks :: NewAreFresh(tick)
    ensures QueueOk(AfterTicks(NO_QUEUE, ticks))
  {
    if ticks != [] {
      RetryInvariant(ticks[..|ticks| - 1]);
      TickOk(AfterTicks(NO_QUEUE, ticks[..|ticks| - 1]), ticks[|ticks| - 1]);
    }
  }

  lemma {:induction false} Delay(h: seq<Post>, n: nat)
    requires Spaced(h) && n < |h|
    ensures h[n].at >= h[0].at + 30 * (Pow2(n) - 1)
  {
    if n > 0 {
      Delay(h, n - 1);
    }
  }

  function Length(): seq<Post> -> int { (h: seq<Post>) => |h| }

  lemma {:induction false} LengthsAtMost(hs: seq<seq<Post>>)
    requires forall h <- hs :: |Kept(h)| <= 5
    ensures Sum(hs, Length()) <= 5 * |hs| + Sum(hs, Lost())
  {
    if hs != [] {
      LengthsAtMost(hs[..|hs| - 1]);
    }
  }

  /** The exact count of posts in every run: a delivery's posts are its attempts, at most five, and its lost updates. */
  lemma PostsCounted(ticks: seq<Tick>, i: nat)
    requires forall tick <- ticks :: NewAreFresh(tick)
    requires i < |AfterTicks(NO_QUEUE, ticks).rows|
    ensures var q := AfterTicks(NO_QUEUE, ticks);
      && |q.history[i]| == q.rows[i].attempts + Lost()(q.history[i])
      && q.rows[i].attempts <= (if q.rows[i].status == Pending then 4 else 5)
      && Sum(q.history, Length()) <= 5 * |q.rows| + Sum(q.history, Lost())
  {
    RetryInvariant(ticks);
    var q := AfterTicks(NO_QUEUE, ticks);
    assert RowOk(q.rows[i], Kept(q.history[i]));
    forall g <- q.history ensures |Kept(g)| <= 5 {
      var j :| 0 <= j < |q.history| && q.history[j] == g;
      assert RowOk(q.rows[j], Kept(q.history[j]));
    }
    LengthsAtMost(q.history);
  }

  // ----- when every update persists -----

  predicate Complete(h: seq<Post>) {
    forall p <- h :: p.kept
  }

  ghost predicate NothingLost(q: Queue) {
    forall i :: 0 <= i < |q.history| ==> Complete(q.history[i])
  }

  lemma {:induction false} AllKept(h: seq<Post>)
    requires Complete(h)
    ensures Kept(h) == h
  {
    if h != [] {
      AllKept(h[..|h| - 1]);
    }
  }

  lemma {:induction false} DeliverAllKeeps(q: Queue, batch: seq<nat>, answers: seq<Answer>)
    requires |q.rows| == |q.history| && |batch| <= |answers| && forall a <- answers :: a.persists
    requires forall k :: 0 <= k < |batch| ==> batch[k] < |q.rows|
    requires NothingLost(q)
    ensures NothingLost(DeliverAll(q, batch, answers))
  {
    if batch != [] {
      var last := |batch| - 1;
      DeliverAllKeeps(q, batch[..last], answers);
      assert answers[last] in answers;
    }
  }

  lemma {:induction false} PersistingRun(ticks: seq<Tick>)
    requires forall tick <- ticks :: Persists(tick)
    ensures NothingLost(AfterTicks(NO_QUEUE, ticks))
  {
    if ticks != [] {
      PersistingRun(ticks[..|ticks| - 1]);
      var q, tick := AfterTicks(NO_QUEUE, ticks[..|ticks| - 1]), ticks[|ticks| - 1];
      var q' := Arrived(q, tick);
      var batch := Batch(q'.rows, q'.clock);
      assert tick in ticks && Persists(tick);
      DeliverAllKeeps(q', batch[..Least(|batch|, |tick.answers|)], tick.answers);
    }
  }

  /** Without lost updates the bounds are on all posts: five per delivery, spaced by the back-off. */
  lemma RetryBounds(ticks: seq<Tick>, i: nat, n: nat)
    requires forall tick <- ticks :: Persists(tick)
    requires i < |AfterTicks(NO_QUEUE, ticks).rows|
    ensures var q := AfterTicks(NO_QUEUE, ticks);
      && (q.rows[i].status == Pending ==> q.rows[i].attempts <= 4)
      && (q.rows[i].status == Failed <==> |q.history[i]| == 5 && forall p <- q.history[i] :: !p.ok)
      && (q.rows[i].status == Delivered <==> exists p <- q.history[i] :: p.ok)
      && (n < |q.history[i]| ==> q.history[i][n].at >= q.history[i][0].at + 30 * (Pow2(n) - 1))
      && Sum(q.history, Length()) <= 5 * |q.rows|
  {
    RetryInvariant(ticks);
    PersistingRun(ticks);
    PostsCounted(ticks, i);
    var q := AfterTicks(NO_QUEUE, ticks);
    var h := q.history[i];
    AllKept(h);
    assert RowOk(q.rows[i], h);
    if n < |h| {
      Delay(h, n);
    }
    forall g <- q.history ensures Lost()(g) == 0 {
      var j :| 0 <= j < |q.history| && q.history[j] == g;
      AllKept(q.history[j]);
    }
    SumZero(q.history, Lost());
    if exists p <- h :: p.ok {
      var k :| 0 <= k < |h| && h[k].ok;
      assert k == |h| - 1;
    }
  }

  lemma TickFrame(q: Queue, tick: Tick, i: nat)
    requires |q.rows| == |q.history| && i < |q.rows|
    ensures var q' := AfterTick(q, tick);
      var now := q.clock + tick.wait;
      (tick.listUp && i in Batch(q.rows + tick.arrivals, now)) ||
        (q'.rows[i] == q.rows[i] && q'.history[i] == q.history[i])
  {
    var q' := Arrived(q, tick);
    var batch := Batch(q'.rows, q'.clock);
    var part := batch[..Least(|batch|, |tick.answers|)];
    DeliverAllFrame(q', part, tick.answers, i);
    if i in part {
      assert i in batch;
    }
  }

  /** Delivered and failed are never left, whatever happens to updates, and no further post is made. */
  lemma {:induction false} TerminalIsFinal(q: Queue, ticks: seq<Tick>, i: nat)
    requires |q.rows| == |q.history| && i < |q.rows| && q.rows[i].status != Pending
    ensures AfterTicks(q, ticks).rows[i] == q.rows[i] && AfterTicks(q, ticks).history[i] == q.history[i]
  {
    if ticks != [] {
      var front, tick := ticks[..|ticks| - 1], ticks[|ticks| - 1];
      TerminalIsFinal(q, front, i);
      var mid := AfterTicks(q, front);
      TickFrame(mid, tick, i);
      assert !Due((mid.rows + tick.arrivals)[i], mid.clock + tick.wait);
    }
  }

  // ----- lost updates -----

  const LOST := Answer(false, 0, false)

  // A full round in which every post fails at once and every update is lost.
  const LOST_ROUND := Tick(0, [], true, seq(BATCH, _ => LOST))

  lemma {:induction false} LostDeliveries(q: Queue, batch: seq<nat>, i: nat)
    requires |q.rows| == |q.history| && |batch| <= BATCH && Distinct(batch) && i < |q.rows|
    requires forall k :: 0 <= k < |batch| ==> batch[k] < |q.rows|
    ensures var q' := DeliverAll(q, batch, LOST_ROUND.answers);
      && q'.rows == q.rows && q'.clock == q.clock
      && |q'.history[i]| == |q.history[i]| + (if i in batch then 1 else 0)
  {
    if batch != [] {
      var last := |batch| - 1;
      LostDeliveries(q, batch[..last], i);
      assert batch == batch[..last] + [batch[last]];
    }
  }

  lemma LostOnce(q: Queue, i: nat)
    requires |q.rows| == |q.history| && i < |q.rows|
    ensures var q' := AfterTick(q, LOST_ROUND);
      && q'.rows == q.rows && q'.clock == q.clock
      && |q'.history[i]| == |q.history[i]| + (if i in Batch(q.rows, q.clock) then 1 else 0)
  {
    var batch := Batch(q.rows, q.clock);
    var q' := Arrived(q, LOST_ROUND);
    assert q'.rows == q.rows && q'.history == q.history && batch[..|batch|] == batch;
    BatchListed(q.rows, q.clock);
    LostDeliveries(q', batch, i);
  }

  /** The lost updates in the count are needed: from any queue, while updates are lost every delivery of the batch is
      posted again in every round, without end. */
  lemma {:induction false} LostUpdatesRepeat(q: Queue, n: nat, i: nat)
    requires |q.rows| == |q.history| && i < |q.rows|
    ensures var q' := AfterTicks(q, seq(n, _ => LOST_ROUND));
      && q'.rows == q.rows && q'.clock == q.clock
      && |q'.history[i]| == |q.history[i]| + (if i in Batch(q.rows, q.clock) then n else 0)
  {
    if n > 0 {
      var ticks := seq(n, _ => LOST_ROUND);
      assert ticks[..n - 1] == seq(n - 1, _ => LOST_ROUND);
      LostUpdatesRepeat(q, n - 1, i);
      LostOnce(AfterTicks(q, ticks[..n - 1]), i);
    }
  }
}
