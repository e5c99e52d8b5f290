/** The webhook protocol under overlap and crashes, and the sequential code as schedules of its steps. */
module Protocol {
  import opened Sums
  import opened Kobo
  import opened Ledger
  import opened Store
  import opened Posting
  import opened Webhook
  import opened Backfill
  import opened MoneyFlow
  import Transfers

  // Handlers that marked the event and may still post it.
  function Holding(txn: string): Handler -> int {
    (h: Handler) => if (h.Waiting? || h.Routed?) && h.ev.txn == txn then 1 else 0
  }

  function CreditedBy(txn: string): Receipt -> int {
    (r: Receipt) => if r.txn == txn && r.path == ByWebhook then 1 else 0
  }

  function SuspendedBy(txn: string): Receipt -> int {
    (r: Receipt) => if r.txn == txn && r.path == BySuspense then 1 else 0
  }

  function InboundLeg(txn: string): Entry -> int {
    (e: Entry) => if e.ref == txn && e.entryType == InboundCredit then 1 else 0
  }

  function DeliveryOf(txn: string): Delivery -> int {
    (d: Delivery) => if d.payload.txn == txn then 1 else 0
  }

  ghost predicate AtMostOnce(s: State, txn: string) {
    && 0 <= Sum(s.handlers, Holding(txn))
    && 0 <= Sum(s.receipts, CreditedBy(txn)) && 0 <= Sum(s.receipts, SuspendedBy(txn))
    && Sum(s.handlers, Holding(txn)) + Sum(s.receipts, CreditedBy(txn)) + Sum(s.receipts, SuspendedBy(txn))
         <= (if txn in s.db.processed then 1 else 0)
  }

  ghost predicate Matched(s: State, txn: string) {
    Sum(s.db.entries, InboundLeg(txn)) == Sum(s.db.deliveries, DeliveryOf(txn)) == Sum(s.receipts, CreditedBy(txn))
  }

  /** The entry at i is followed by the pool leg of its own group. */
  predicate PairedAt(es: seq<Entry>, i: nat)
    requires i < |es|
  {
    i + 1 < |es| && es[i + 1].account.System? && es[i + 1].account.name == Pool &&
    es[i + 1] ==
      es[i].(id := es[i + 1].id, account := es[i + 1].account, direction := Debit, entryType := PoolLiability)
  }

  ghost predicate CreditsPaired(es: seq<Entry>) {
    forall i :: 0 <= i < |es| && es[i].entryType == InboundCredit ==> es[i].direction == Credit && PairedAt(es, i)
  }

  lemma MarkStep(s: State, ev: Event, txn: string)
    requires AtMostOnce(s, txn)
    ensures AtMostOnce(StepMark(s, ev), txn)
  {
    var next := if ev.eventType == PAYMENT_SUCCESS then Waiting(ev) else Over;
    SumAppend(s.handlers, next, Holding(txn));
    assert ev.txn in s.db.processed || StepMark(s, ev).handlers == s.handlers + [next];
  }

  lemma HandlerStep(s: State, h: nat, next: Handler, txn: string)
    requires h < |s.handlers|
    ensures Sum(s.handlers[h := next], Holding(txn)) ==
      Sum(s.handlers, Holding(txn)) - Holding(txn)(s.handlers[h]) + Holding(txn)(next)
    ensures Holding(txn)(s.handlers[h]) <= Sum(s.handlers, Holding(txn)) &&
      0 <= Sum(s.handlers[h := next], Holding(txn))
  {
    SumUpdate(s.handlers, h, next, Holding(txn));
    SumNonNegative(s.handlers, Holding(txn));
    SumNonNegative(s.handlers[h := next], Holding(txn));
  }

  lemma LookupStep(s: State, h: nat, up: bool, txn: string)
    requires AtMostOnce(s, txn)
    ensures AtMostOnce(StepLookup(s, h, up), txn)
  {
    if h < |s.handlers| && s.handlers[h].Waiting? {
      HandlerStep(s, h, Routed(s.handlers[h].ev, Route(s.db, s.handlers[h].ev, up)), txn);
    }
  }

  lemma StopStep(s: State, h: nat, txn: string)
    requires AtMostOnce(s, txn)
    ensures AtMostOnce(StepStopHandler(s, h), txn)
  {
    if h < |s.handlers| {
      HandlerStep(s, h, Over, txn);
    }
  }

  lemma ReceiptStep(s: State, r: Receipt, txn: string)
    ensures Sum(s.receipts + [r], CreditedBy(txn)) ==
      Sum(s.receipts, CreditedBy(txn)) + (if r.txn == txn && r.path == ByWebhook then 1 else 0)
    ensures Sum(s.receipts + [r], SuspendedBy(txn)) ==
      Sum(s.receipts, SuspendedBy(txn)) + (if r.txn == txn && r.path == BySuspense then 1 else 0)
  {
    SumAppend(s.receipts, r, CreditedBy(txn));
    SumAppend(s.receipts, r, SuspendedBy(txn));
  }

  lemma CommitOnce(s: State, h: nat, now: int, f: WebhookFaults, txn: string)
    requires AtMostOnce(s, txn)
    ensures AtMostOnce(StepCommit(s, h, now, f), txn)
  {
    if h < |s.handlers| && s.handlers[h].Routed? {
      var Routed(ev, dest) := s.handlers[h];
      var s' := StepCommit(s, h, now, f);
      HandlerStep(s, h, Over, txn);
      assert s'.handlers == s.handlers[h := Over] && s'.db.processed == s.db.processed;
      if Commits(s.db, ev, dest, now, f) {
        var r := ReceiptOf(ev, dest);
        assert s'.receipts == s.receipts + [r] && r.txn == ev.txn && (r.path == ByWebhook || r.path == BySuspense);
        ReceiptStep(s, r, txn);
      } else {
        assert s'.receipts == s.receipts;
      }
    }
  }

  lemma PostedOnce(t: Tables, ev: Event, dest: Destination, now: int, f: WebhookFaults, txn: string)
    requires Commits(t, ev, dest, now, f)
    ensures var t' := PostRouted(t, ev, dest, now, f);
      var one := if dest.ToCustomer? && ev.txn == txn then 1 else 0;
      && Sum(t'.entries, InboundLeg(txn)) == Sum(t.entries, InboundLeg(txn)) + one
      && Sum(t'.deliveries, DeliveryOf(txn)) == Sum(t.deliveries, DeliveryOf(txn)) + one
  {
    var t' := PostRouted(t, ev, dest, now, f);
    match dest
    case ToSuspense(org) =>
      var leg := SuspenseLeg(org, NairaToKobo(ev.naira), ev.txn, now, t.nextId)[0];
      assert t'.entries == t.entries + [leg];
      SumAppend(t.entries, leg, InboundLeg(txn));
    case ToCustomer(org, account) =>
      var batch := CreditBatch(t, CreditOf(ev, org, account), now);
      assert t'.entries == t.entries + [batch[0], batch[1]];
      SumAppendTwo(t.entries, batch[0], batch[1], InboundLeg(txn));
      var d := NewDelivery(Credited(t, CreditOf(ev, org, account), now), org, ev, now);
      assert t'.deliveries == t.deliveries + [d];
      SumAppend(t.deliveries, d, DeliveryOf(txn));
  }

  lemma CommitMatched(s: State, h: nat, now: int, f: WebhookFaults, txn: string)
    requires Matched(s, txn)
    ensures Matched(StepCommit(s, h, now, f), txn)
  {
    if h < |s.handlers| && s.handlers[h].Routed? {
      var Routed(ev, dest) := s.handlers[h];
      if Commits(s.db, ev, dest, now, f) {
        PostedOnce(s.db, ev, dest, now, f, txn);
        ReceiptStep(s, ReceiptOf(ev, dest), txn);
      }
    }
  }

  lemma InsertOnce(s: State, j: nat, fault: InsertFault, txn: string)
    requires AtMostOnce(s, txn)
    ensures AtMostOnce(StepInsert(s, j, fault), txn)
  {
    if j < |s.jobs| && s.jobs[j].Selected? {
      var job := s.jobs[j];
      ReceiptStep(s, Receipt(job.txn.id, NairaToKobo(job.txn.naira), job.account, NIL_ORG, ByBackfill), txn);
    }
  }

  lemma InsertMatched(s: State, j: nat, fault: InsertFault, txn: string)
    requires Matched(s, txn)
    ensures Matched(StepInsert(s, j, fault), txn)
  {
    if j < |s.jobs| && s.jobs[j].Selected? {
      var job := s.jobs[j];
      ReceiptStep(s, Receipt(job.txn.id, NairaToKobo(job.txn.naira), job.account, NIL_ORG, ByBackfill), txn);
      SumAppend(s.db.entries, JobBatch(s.db, job)[0], InboundLeg(txn));
    }
  }

  lemma DebitMatched(s: State, i: nat, now: int, fault: InsertFault, txn: string)
    requires Matched(s, txn)
    ensures Matched(StepInsertDebit(s, i, now, fault), txn)
  {
    if i < |s.transfers| && s.transfers[i].phase.Checked? {
      var batch := DebitBatch(s.db, s.transfers[i].d, now);
      SumAppendTwo(s.db.entries, batch[0], batch[1], InboundLeg(txn));
      var s' := StepInsertDebit(s, i, now, fault);
      assert s'.db.entries == s.db.entries || s'.db.entries == s.db.entries + [batch[0], batch[1]];
    }
  }

  lemma ReverseMatched(s: State, i: nat, now: int, fault: InsertFault, txn: string)
    requires Matched(s, txn)
    ensures Matched(StepReverse(s, i, now, fault), txn)
  {
    if i < |s.transfers| && s.transfers[i].phase.AwaitingReversal? {
      var batch := CreditBatch(s.db, Transfers.ReversalOf(s.transfers[i].d), now);
      SumAppendTwo(s.db.entries, batch[0], batch[1], InboundLeg(txn));
      var s' := StepReverse(s, i, now, fault);
      assert s'.db.entries == s.db.entries || s'.db.entries == s.db.entries + [batch[0], batch[1]];
    }
  }

  lemma OnceStep(s: State, l: Label, txn: string)
    requires AtMostOnce(s, txn)
    ensures AtMostOnce(Step(s, l), txn)
  {
    match l
    case Mark(ev) => MarkStep(s, ev, txn);
    case Lookup(h, up) => LookupStep(s, h, up, txn);
    case Commit(h, now, f) => CommitOnce(s, h, now, f, txn);
    case StopHandler(h) => StopStep(s, h, txn);
    case Insert(j, fault) => InsertOnce(s, j, fault, txn);
    case _ =>
  }

  lemma MatchedStep(s: State, l: Label, txn: string)
    requires Matched(s, txn)
    ensures Matched(Step(s, l), txn)
  {
    match l
    case Commit(h, now, f) => CommitMatched(s, h, now, f, txn);
    case Insert(j, fault) => InsertMatched(s, j, fault, txn);
    case InsertDebit(i, now, fault) => DebitMatched(s, i, now, fault, txn);
    case Reverse(i, now, fault) => ReverseMatched(s, i, now, fault, txn);
    case _ =>
  }

  /** With any overlap and any crashes, an id gets at most one inbound credit, only once it is marked,
      and exactly as many enqueued deliveries as inbound credits. */
  lemma {:induction false} WebhookProtocol(ls: seq<Label>, txn: string)
    ensures var s := Run(INIT, ls);
      && AtMostOnce(s, txn) && Matched(s, txn)
      && Sum(s.db.entries, InboundLeg(txn)) <= 1
      && (Sum(s.db.entries, InboundLeg(txn)) == 1 ==> txn in s.db.processed)
  {
    if ls != [] {
      WebhookProtocol(ls[..|ls| - 1], txn);
      OnceStep(Run(INIT, ls[..|ls| - 1]), ls[|ls| - 1], txn);
      MatchedStep(Run(INIT, ls[..|ls| - 1]), ls[|ls| - 1], txn);
    }
  }

  lemma AppendKeepsPairs(es: seq<Entry>, batch: seq<Entry>)
    requires CreditsPaired(es) && CreditsPaired(batch)
    ensures CreditsPaired(es + batch)
  {
    forall i | 0 <= i < |es + batch| && (es + batch)[i].entryType == InboundCredit
      ensures (es + batch)[i].direction == Credit && PairedAt(es + batch, i)
    {
      if i < |es| {
        assert PairedAt(es, i);
      } else {
        assert PairedAt(batch, i - |es|);
      }
    }
  }

  lemma CreditBatchPaired(t: Tables, req: CreditRequest, now: int)
    ensures CreditsPaired(CreditBatch(t, req, now))
  {
    var batch := CreditBatch(t, req, now);
    assert batch[0].entryType == InboundCredit ==> PairedAt(batch, 0);
  }

  lemma PairStep(s: State, l: Label)
    requires CreditsPaired(s.db.entries)
    ensures CreditsPaired(Step(s, l).db.entries)
  {
    match l
    case Commit(h, now, f) =>
      if h < |s.handlers| && s.handlers[h].Routed? {
        var Routed(ev, dest) := s.handlers[h];
        match dest
        case ToSuspense(org) =>
          AppendKeepsPairs(s.db.entries, SuspenseLeg(org, NairaToKobo(ev.naira), ev.txn, now, s.db.nextId));
        case ToCustomer(org, account) =>
          CreditBatchPaired(s.db, CreditOf(ev, org, account), now);
          AppendKeepsPairs(s.db.entries, CreditBatch(s.db, CreditOf(ev, org, account), now));
      }
    case Insert(j, fault) =>
      if j < |s.jobs| && s.jobs[j].Selected? {
        AppendKeepsPairs(s.db.entries, JobBatch(s.db, s.jobs[j]));
      }
    case InsertDebit(i, now, fault) =>
      if i < |s.transfers| {
        AppendKeepsPairs(s.db.entries, DebitBatch(s.db, s.transfers[i].d, now));
      }
    case Reverse(i, now, fault) =>
      if i < |s.transfers| {
        CreditBatchPaired(s.db, Transfers.ReversalOf(s.transfers[i].d), now);
        AppendKeepsPairs(s.db.entries, CreditBatch(s.db, Transfers.ReversalOf(s.transfers[i].d), now));
      }
    case _ =>
  }

  /** Every inbound credit stands next to its pool leg: same group, amount, reference and time. */
  lemma {:induction false} EveryCreditPaired(ls: seq<Label>)
    ensures CreditsPaired(Run(INIT, ls).db.entries)
  {
    if ls != [] {
      EveryCreditPaired(ls[..|ls| - 1]);
      PairStep(Run(INIT, ls[..|ls| - 1]), ls[|ls| - 1]);
    }
  }

  // ----- the sequential code is one schedule of these steps -----

  /** A whole webhook request is its three steps with nothing in between. */
  lemma WebhookIsASchedule(s: State, ev: Event, now: int, f: WebhookFaults)
    requires f.markUp
    ensures var h := |s.handlers|;
      Run(s, [Mark(ev), Lookup(h, f.lookupUp), Commit(h, now, f)]).db == AfterWebhook(s.db, ev, now, f)
  {
    var h := |s.handlers|;
    RunThree(s, Mark(ev), Lookup(h, f.lookupUp), Commit(h, now, f));
  }

  /** One loop iteration of the backfill is its three steps with nothing in between. */
  lemma BackfillIsASchedule(s: State, p: Pull)
    requires p.checkUp && p.lookupUp
    ensures var j := |s.jobs|;
      Run(s, [Select(p.txn), Insert(j, p.insert), MarkDone(j, p.markUp)]).db == PullOne(s.db, p)
  {
    var j := |s.jobs|;
    RunThree(s, Select(p.txn), Insert(j, p.insert), MarkDone(j, p.markUp));
  }

  /** A validated transfer with a client and a readable balance is its four steps with nothing in between. */
  lemma TransferIsASchedule(
      s: State, org: OrgId, account: AccountId, req: Transfers.TransferRequest, now: int, f: Transfers.TransferFaults,
      paid: bool)
    requires Transfers.Validate(req).Valid? && f.clientUp && f.balanceUp
    ensures var i, d := |s.transfers|, Transfers.DebitOf(org, account, req);
      Run(s, [Check(d), InsertDebit(i, now, f.debit), Answer(i, f.accepts, paid), Reverse(i, now, f.reversal)]).db ==
        Transfers.AfterTransfer(s.db, org, account, req, now, f)
  {
    DebitIsASchedule(s, Transfers.DebitOf(org, account, req), now, f, paid);
  }

  lemma DebitIsASchedule(s: State, d: DebitRequest, now: int, f: Transfers.TransferFaults, paid: bool)
    requires d.amount > 0 && f.balanceUp
    ensures var i := |s.transfers|;
      Run(s, [Check(d), InsertDebit(i, now, f.debit), Answer(i, f.accepts, paid), Reverse(i, now, f.reversal)]).db ==
        Transfers.AfterDebit(s.db, d, now, f)
  {
    var i := |s.transfers|;
    var check := [Check(d), InsertDebit(i, now, f.debit)];
    var answer := [Answer(i, f.accepts, paid), Reverse(i, now, f.reversal)];
    RunConcat(s, check, answer);
    assert check + answer ==
      [Check(d), InsertDebit(i, now, f.debit), Answer(i, f.accepts, paid), Reverse(i, now, f.reversal)];
    CheckInsert(s, d, i, now, f.debit);
    AnswerReverse(Run(s, check), i, f.accepts, paid, now, f.reversal);
    DebitSteps(s, d, now, f, paid);
  }

  lemma CheckInsert(s: State, d: DebitRequest, i: nat, now: int, fault: InsertFault)
    ensures Run(s, [Check(d), InsertDebit(i, now, fault)]) == StepInsertDebit(StepCheck(s, d), i, now, fault)
  {
    RunTwo(s, Check(d), InsertDebit(i, now, fault));
  }

  lemma AnswerReverse(s: State, i: nat, accepted: bool, paid: bool, now: int, fault: InsertFault)
    ensures Run(s, [Answer(i, accepted, paid), Reverse(i, now, fault)]) ==
      StepReverse(StepAnswer(s, i, accepted, paid), i, now, fault)
  {
    RunTwo(s, Answer(i, accepted, paid), Reverse(i, now, fault));
  }

  lemma DebitSteps(s: State, d: DebitRequest, now: int, f: Transfers.TransferFaults, paid: bool)
    requires d.amount > 0 && f.balanceUp
    ensures var i := |s.transfers|;
      var s' := StepInsertDebit(StepCheck(s, d), i, now, f.debit);
      StepReverse(StepAnswer(s', i, f.accepts, paid), i, now, f.reversal).db == Transfers.AfterDebit(s.db, d, now, f)
  {
    var i := |s.transfers|;
    if Balance(s.db.entries, d.account) >= d.amount {
      CheckThenDebit(s, d, now, f);
      AnswerThenReverse(StepInsertDebit(StepCheck(s, d), i, now, f.debit), i, d, f.accepts, paid, now, f.reversal);
    }
  }

  lemma CheckThenDebit(s: State, d: DebitRequest, now: int, f: Transfers.TransferFaults)
    requires 0 < d.amount <= Balance(s.db.entries, d.account) && f.balanceUp
    ensures var s' := StepInsertDebit(StepCheck(s, d), |s.transfers|, now, f.debit);
      && |s'.transfers| == |s.transfers| + 1
      && var posted := DebitVerdict(s.db, d, now, f.balanceUp, f.debit).Posted?;
         s'.transfers[|s.transfers|] == Transfer(d, if posted then AwaitingAnswer else Abandoned) &&
         s'.db == if posted then Debited(s.db, d, now) else s.db
  {
  }

  lemma AnswerThenReverse(s: State, i: nat, d: DebitRequest, accepted: bool, paid: bool, now: int, fault: InsertFault)
    requires i < |s.transfers| && s.transfers[i] in {Transfer(d, AwaitingAnswer), Transfer(d, Abandoned)}
    ensures StepReverse(StepAnswer(s, i, accepted, paid), i, now, fault).db ==
            if accepted || s.transfers[i].phase == Abandoned then s.db else Transfers.AfterReversal(s.db, d, now, fault)
  {
  }

  lemma RunTwo(s: State, a: Label, b: Label)
    ensures Run(s, [a, b]) == Step(Step(s, a), b)
  {
    assert [a, b][..1] == [a] && [a][..0] == [];
    assert Run(s, [a]) == Step(s, a);
  }

  lemma RunThree(s: State, a: Label, b: Label, c: Label)
    ensures Run(s, [a, b, c]) == Step(Step(Step(s, a), b), c)
  {
    RunTwo(s, a, b);
    assert [a, b, c][..2] == [a, b];
  }

  // ----- marked ids -----

  function ReceivedAs(txn: string): Receipt -> int {
    (r: Receipt) => if r.txn == txn then 1 else 0
  }

  // Backfill jobs that selected the id before it was marked.
  function Selecting(txn: string): Job -> int {
    (j: Job) => if j.Selected? && j.txn.id == txn then 1 else 0
  }

  // Nobody is left who could still post the id.
  ghost predicate Settled(s: State, txn: string) {
    txn in s.db.processed && Sum(s.handlers, Holding(txn)) == 0 && Sum(s.jobs, Selecting(txn)) == 0
  }

  lemma JobStep(s: State, j: nat, next: Job, txn: string)
    requires j < |s.jobs| && Sum(s.jobs, Selecting(txn)) == 0 && !next.Selected?
    ensures Sum(s.jobs[j := next], Selecting(txn)) == 0
    ensures s.jobs[j].Selected? ==> s.jobs[j].txn.id != txn
  {
    SumNonNegative(s.jobs, Selecting(txn));
    SumUpdate(s.jobs, j, next, Selecting(txn));
    assert s.jobs[j] in s.jobs;
  }

  ghost predicate StaysSettled(s: State, s': State, txn: string) {
    Settled(s', txn) && Sum(s'.receipts, ReceivedAs(txn)) == Sum(s.receipts, ReceivedAs(txn))
  }

  lemma MarkSettled(s: State, ev: Event, txn: string)
    requires Settled(s, txn)
    ensures StaysSettled(s, StepMark(s, ev), txn)
  {
    var next := if ev.eventType == PAYMENT_SUCCESS then Waiting(ev) else Over;
    SumAppend(s.handlers, next, Holding(txn));
    assert ev.txn in s.db.processed || StepMark(s, ev).handlers == s.handlers + [next];
  }

  lemma IdleHandler(s: State, h: nat, next: Handler, txn: string)
    requires h < |s.handlers| && Settled(s, txn) && Holding(txn)(next) <= Holding(txn)(s.handlers[h])
    ensures Holding(txn)(s.handlers[h]) == 0 && Sum(s.handlers[h := next], Holding(txn)) == 0
  {
    HandlerStep(s, h, next, txn);
  }

  lemma LookupSettled(s: State, h: nat, up: bool, txn: string)
    requires Settled(s, txn)
    ensures StaysSettled(s, StepLookup(s, h, up), txn)
  {
    if h < |s.handlers| && s.handlers[h].Waiting? {
      IdleHandler(s, h, Routed(s.handlers[h].ev, Route(s.db, s.handlers[h].ev, up)), txn);
    }
  }

  lemma CommitSettled(s: State, h: nat, now: int, f: WebhookFaults, txn: string)
    requires Settled(s, txn)
    ensures StaysSettled(s, StepCommit(s, h, now, f), txn)
  {
    if h < |s.handlers| && s.handlers[h].Routed? {
      var Routed(ev, dest) := s.handlers[h];
      IdleHandler(s, h, Over, txn);
      SumAppend(s.receipts, ReceiptOf(ev, dest), ReceivedAs(txn));
      var s' := StepCommit(s, h, now, f);
      assert s'.receipts == s.receipts || s'.receipts == s.receipts + [ReceiptOf(ev, dest)];
      assert s'.db.processed == s.db.processed && s'.handlers == s.handlers[h := Over] && s'.jobs == s.jobs;
    }
  }

  lemma StopSettled(s: State, h: nat, txn: string)
    requires Settled(s, txn)
    ensures StaysSettled(s, StepStopHandler(s, h), txn)
  {
    if h < |s.handlers| {
      IdleHandler(s, h, Over, txn);
    }
  }

  lemma SelectSettled(s: State, p: ProviderTxn, txn: string)
    requires Settled(s, txn)
    ensures StaysSettled(s, StepSelect(s, p), txn)
  {
    if StepSelect(s, p) != s {
      SumAppend(s.jobs, Selected(p, Virtual(s.db.accounts[AccountNumber(p)].id)), Selecting(txn));
    }
  }

  lemma InsertSettled(s: State, j: nat, fault: InsertFault, txn: string)
    requires Settled(s, txn)
    ensures StaysSettled(s, StepInsert(s, j, fault), txn)
  {
    if j < |s.jobs| && s.jobs[j].Selected? {
      var job := s.jobs[j];
      JobStep(s, j, Finished, txn);
      JobStep(s, j, Inserted(job.txn.id), txn);
      SumAppend(s.receipts, Receipt(job.txn.id, NairaToKobo(job.txn.naira), job.account, NIL_ORG, ByBackfill),
        ReceivedAs(txn));
    }
  }

  lemma SettledStep(s: State, l: Label, txn: string)
    requires Settled(s, txn)
    ensures StaysSettled(s, Step(s, l), txn)
  {
    match l
    case Mark(ev) => MarkSettled(s, ev, txn);
    case Lookup(h, up) => LookupSettled(s, h, up, txn);
    case Commit(h, now, f) => CommitSettled(s, h, now, f, txn);
    case StopHandler(h) => StopSettled(s, h, txn);
    case Select(p) => SelectSettled(s, p, txn);
    case Insert(j, fault) => InsertSettled(s, j, fault, txn);
    case MarkDone(j, _) => if j < |s.jobs| { JobStep(s, j, Finished, txn); }
    case StopJob(j) => if j < |s.jobs| { JobStep(s, j, Finished, txn); }
    case _ =>
  }

  /** An id that is marked while nobody is working on it is never posted again; when its handler crashed before
      the commit, that credit is lost for good, although the provider retries and the sweep looks for it. */
  lemma {:induction false} MarkedIdsAreFinal(s: State, ls: seq<Label>, txn: string)
    requires Settled(s, txn)
    ensures StaysSettled(s, Run(s, ls), txn)
  {
    if ls != [] {
      MarkedIdsAreFinal(s, ls[..|ls| - 1], txn);
      SettledStep(Run(s, ls[..|ls| - 1]), ls[|ls| - 1], txn);
    }
  }
}
